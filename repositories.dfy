// The four tables the services read and write, each an in-memory sequence of
// rows in insertion order, with the derived queries the services call written
// as filters over that sequence. A counter per table stands for the generated
// UUID primary keys.
module Repositories {
  import opened Wrappers
  import opened Collections
  import opened Sorting
  import opened Filings
  import opened TaxRules
  import opened CalculationRuns
  import opened SubmissionRecords

  // ---------------------------------------------------------------------
  // Tax filings
  // ---------------------------------------------------------------------

  function FilingId(f: TaxFiling): nat { f.id }

  /** `f` is an ORIGINAL filing of `userId` for that year and jurisdiction. */
  predicate IsOriginalOf(f: TaxFiling, userId: nat, taxYear: int, jurisdiction: string)
  {
    f.filingType == Original && f.userId == userId && f.taxYear == taxYear && f.jurisdiction == jurisdiction
  }

  /** Two rows of the filing table: different ids, and not two originals for one user, year and jurisdiction. */
  predicate FilingsCoexist(a: TaxFiling, b: TaxFiling)
  {
    a.id != b.id && !(a.filingType == Original && IsOriginalOf(b, a.userId, a.taxYear, a.jurisdiction))
  }

  /** Filings of one user, in table order. */
  function FilingsOfUser(s: seq<TaxFiling>, userId: nat): (r: seq<TaxFiling>)
    ensures forall k :: 0 <= k < |r| ==> r[k].userId == userId && r[k] in s
    ensures forall k :: 0 <= k < |s| && s[k].userId == userId ==> s[k] in r
  {
    if |s| == 0 then []
    else if s[0].userId == userId then [s[0]] + FilingsOfUser(s[1..], userId)
    else FilingsOfUser(s[1..], userId)
  }

  /** Narrowing to one user keeps no filing more often than the table has it. */
  lemma {:induction false} FilingsOfUserCounts(s: seq<TaxFiling>, userId: nat)
    ensures forall x :: multiset(FilingsOfUser(s, userId))[x] <= multiset(s)[x]
    decreases |s|
  {
    if |s| > 0 {
      FilingsOfUserCounts(s[1..], userId);
      assert s == [s[0]] + s[1..];
    }
  }

  /** Rows with distinct ids are distinct objects: no filing occurs twice in the table. */
  lemma {:induction false} CoexistingFilingsOccurOnce(s: seq<TaxFiling>)
    requires Pairwise(s, FilingsCoexist)
    ensures forall x :: multiset(s)[x] <= 1
    decreases |s|
  {
    if |s| > 0 {
      var t := s[1..];
      PairwiseTail(s, FilingsCoexist);
      CoexistingFilingsOccurOnce(t);
      forall j | 0 <= j < |t| ensures t[j] != s[0] {
        PairwiseAt(s, FilingsCoexist, 0, j + 1);
      }
      assert s == [s[0]] + t;
      assert multiset(s) == multiset{s[0]} + multiset(t);
    }
  }

  /** The sort key of `ORDER BY taxYear DESC`. */
  function NegatedTaxYear(f: TaxFiling): int { -f.taxYear }

  class TaxFilingRepository {
    var filings: seq<TaxFiling>
    var nextId: nat

    ghost predicate Valid()
      reads this
    {
      Pairwise(filings, FilingsCoexist)
      && forall k :: 0 <= k < |filings| ==> filings[k].id < nextId
    }

    constructor()
      ensures Valid() && filings == []
    {
      filings := [];
      nextId := 0;
    }

    /** `findById` (and `findByIdWithItems`, which differs only in fetching). */
    function FindById(id: nat): (r: Option<TaxFiling>)
      reads this
      ensures r.Some? ==> r.value in filings && r.value.id == id
      ensures r.None? <==> forall k :: 0 <= k < |filings| ==> filings[k].id != id
    {
      FindByKey(filings, FilingId, id)
    }

    predicate OriginalFilingExists(userId: nat, taxYear: int, jurisdiction: string)
      reads this
    {
      exists k :: 0 <= k < |filings| && IsOriginalOf(filings[k], userId, taxYear, jurisdiction)
    }

    /**
     * `findByUserIdOrderByTaxYearDesc`: the user's filings, latest year
     * first; filings of one year keep their table order.
     */
    function FindByUserIdOrderByTaxYearDesc(userId: nat): (r: seq<TaxFiling>)
      reads this
      ensures SortedBy(r, NegatedTaxYear)
      ensures multiset(r) == multiset(FilingsOfUser(filings, userId))
      ensures forall y :: WithKey(r, NegatedTaxYear, y) == WithKey(FilingsOfUser(filings, userId), NegatedTaxYear, y)
    {
      var mine := FilingsOfUser(filings, userId);
      assert forall y :: WithKey(SortBy(mine, NegatedTaxYear), NegatedTaxYear, y) == WithKey(mine, NegatedTaxYear, y) by {
        forall y ensures WithKey(SortBy(mine, NegatedTaxYear), NegatedTaxYear, y) == WithKey(mine, NegatedTaxYear, y) {
          SortByStable(mine, NegatedTaxYear, y);
        }
      }
      SortBy(mine, NegatedTaxYear)
    }

    method NewId() returns (id: nat)
      modifies this`nextId
      ensures id == old(nextId) && nextId == old(nextId) + 1
      ensures old(Valid()) ==> Valid()
    {
      id := nextId;
      nextId := nextId + 1;
    }

    /** Takes `n` consecutive ids at once, the first of them returned. */
    method ReserveIds(n: nat) returns (first: nat)
      modifies this`nextId
      ensures first == old(nextId) && nextId == old(nextId) + n
      ensures old(Valid()) ==> Valid()
    {
      first := nextId;
      nextId := nextId + n;
    }

    /** `save` of a new filing. */
    method Add(f: TaxFiling)
      requires Valid()
      requires f.id < nextId
      requires forall k :: 0 <= k < |filings| ==> FilingsCoexist(filings[k], f)
      modifies this`filings
      ensures Valid() && filings == old(filings) + [f]
    {
      PairwiseAppend(filings, f, FilingsCoexist);
      filings := filings + [f];
    }

    /** `delete`: the row with that id goes, the others stay in order. */
    method Remove(id: nat)
      requires Valid()
      modifies this`filings
      ensures Valid()
      ensures IndexOfKey(old(filings), FilingId, id).None? ==> filings == old(filings)
      ensures var i := IndexOfKey(old(filings), FilingId, id);
        i.Some? ==> filings == old(filings)[..i.value] + old(filings)[i.value + 1..]
      ensures FindById(id).None?
    {
      var i := IndexOfKey(filings, FilingId, id);
      if i.Some? {
        var s := filings;
        PairwiseRemoveAt(s, i.value, FilingsCoexist);
        filings := s[..i.value] + s[i.value + 1..];
        forall k | 0 <= k < |filings| ensures filings[k].id != id {
          var k' := if k < i.value then k else k + 1;
          assert filings[k] == s[k'];
          if k' < i.value {
            assert FilingsCoexist(s[k'], s[i.value]);
          } else {
            assert FilingsCoexist(s[i.value], s[k']);
          }
        }
      }
    }
  }

  /** Under the table's invariant, the user's filings as the query lists them have distinct ids. */
  lemma UserQueryIdsDistinct(repo: TaxFilingRepository, userId: nat)
    requires repo.Valid()
    ensures var q := repo.FindByUserIdOrderByTaxYearDesc(userId);
      forall i, j :: 0 <= i < j < |q| ==> q[i].id != q[j].id
  {
    var q := repo.FindByUserIdOrderByTaxYearDesc(userId);
    var own := FilingsOfUser(repo.filings, userId);
    FilingsOfUserCounts(repo.filings, userId);
    CoexistingFilingsOccurOnce(repo.filings);
    forall i, j | 0 <= i < j < |q| ensures q[i].id != q[j].id {
      if q[i] == q[j] {
        SameAtTwoPlaces(q, i, j);
        assert false;
      } else {
        assert q[i] in multiset(own) && q[j] in multiset(own);
        assert q[i] in own && q[j] in own;
        var a :| 0 <= a < |repo.filings| && repo.filings[a] == q[i];
        var b :| 0 <= b < |repo.filings| && repo.filings[b] == q[j];
        PairwiseAt(repo.filings, FilingsCoexist, a, b);
      }
    }
  }

  // ---------------------------------------------------------------------
  // Tax rule versions
  // ---------------------------------------------------------------------

  function RuleVersionId(v: TaxRuleVersion): nat { v.id }

  predicate SameRuleKey(a: TaxRuleVersion, b: TaxRuleVersion)
  {
    a.jurisdiction == b.jurisdiction && a.taxYear == b.taxYear
  }

  /** Two rows of the rule-version table: different ids and different version numbers within a key. */
  predicate VersionsCoexist(a: TaxRuleVersion, b: TaxRuleVersion)
  {
    a.id != b.id && !(SameRuleKey(a, b) && a.version == b.version)
  }

  predicate IsActiveFor(v: TaxRuleVersion, jurisdiction: string, taxYear: int)
    reads v
  {
    v.jurisdiction == jurisdiction && v.taxYear == taxYear && v.status == Active
  }

  /** The status of each version, in table order. */
  function Statuses(vs: seq<TaxRuleVersion>): (r: seq<RuleStatus>)
    reads vs
    ensures |r| == |vs|
    ensures forall k :: 0 <= k < |vs| ==> r[k] == vs[k].status
  {
    if |vs| == 0 then [] else [vs[0].status] + Statuses(vs[1..])
  }

  /** With these statuses, no two versions of one jurisdiction and year are ACTIVE together. */
  predicate OneActivePerKey(vs: seq<TaxRuleVersion>, st: seq<RuleStatus>)
  {
    |st| == |vs|
    && forall i, j {:trigger SameRuleKey(vs[i], vs[j])} :: 0 <= i < j < |vs| && st[i] == Active && st[j] == Active ==> !SameRuleKey(vs[i], vs[j])
  }

  /** The first ACTIVE version of the key. */
  function FindActive(vs: seq<TaxRuleVersion>, jurisdiction: string, taxYear: int): (r: Option<TaxRuleVersion>)
    reads vs
    ensures r.Some? ==> r.value in vs && IsActiveFor(r.value, jurisdiction, taxYear)
    ensures r.None? <==> forall k :: 0 <= k < |vs| ==> !IsActiveFor(vs[k], jurisdiction, taxYear)
  {
    if |vs| == 0 then None
    else if IsActiveFor(vs[0], jurisdiction, taxYear) then Some(vs[0])
    else FindActive(vs[1..], jurisdiction, taxYear)
  }

  /** The version belongs to that jurisdiction and year. */
  predicate HasKey(v: TaxRuleVersion, jurisdiction: string, taxYear: int)
  {
    v.jurisdiction == jurisdiction && v.taxYear == taxYear
  }

  /** The largest version number recorded for a key, if any. */
  function MaxVersion(vs: seq<TaxRuleVersion>, jurisdiction: string, taxYear: int): (r: Option<int>)
    ensures r.Some? ==> exists k :: 0 <= k < |vs| && HasKey(vs[k], jurisdiction, taxYear) && vs[k].version == r.value
    ensures r.Some? ==> forall k :: 0 <= k < |vs| && HasKey(vs[k], jurisdiction, taxYear) ==> vs[k].version <= r.value
    ensures r.None? <==> forall k :: 0 <= k < |vs| ==> !HasKey(vs[k], jurisdiction, taxYear)
  {
    if |vs| == 0 then None
    else
      var rest := MaxVersion(vs[1..], jurisdiction, taxYear);
      assert forall k :: 1 <= k < |vs| ==> vs[k] == vs[1..][k - 1];
      if !HasKey(vs[0], jurisdiction, taxYear) then
        assert rest.Some? ==> exists k :: 0 <= k < |vs[1..]| && HasKey(vs[1..][k], jurisdiction, taxYear)
                                          && vs[1..][k].version == rest.value;
        rest
      else if rest.None? || rest.value < vs[0].version then Some(vs[0].version)
      else
        assert exists k :: 0 <= k < |vs[1..]| && HasKey(vs[1..][k], jurisdiction, taxYear)
                           && vs[1..][k].version == rest.value;
        rest
  }

  class TaxRuleVersionRepository {
    var versions: seq<TaxRuleVersion>
    var nextId: nat

    ghost predicate Valid()
      reads this, versions
    {
      Pairwise(versions, VersionsCoexist)
      && OneActivePerKey(versions, Statuses(versions))
      && forall k :: 0 <= k < |versions| ==> versions[k].id < nextId
    }

    constructor()
      ensures Valid() && versions == []
    {
      versions := [];
      nextId := 0;
    }

    function FindById(id: nat): (r: Option<TaxRuleVersion>)
      reads this
      ensures r.Some? ==> r.value in versions && r.value.id == id
      ensures r.None? <==> forall k :: 0 <= k < |versions| ==> versions[k].id != id
    {
      FindByKey(versions, RuleVersionId, id)
    }

    /** `findActiveRule`: the ACTIVE version of a jurisdiction and year. */
    function FindActiveRule(jurisdiction: string, taxYear: int): (r: Option<TaxRuleVersion>)
      reads this, versions
      ensures r.Some? ==> r.value in versions && IsActiveFor(r.value, jurisdiction, taxYear)
      ensures r.None? <==> forall k :: 0 <= k < |versions| ==> !IsActiveFor(versions[k], jurisdiction, taxYear)
    {
      FindActive(versions, jurisdiction, taxYear)
    }

    /** `COALESCE(MAX(version), 0) + 1` over the versions of the key. */
    function NextVersionNumber(jurisdiction: string, taxYear: int): (n: int)
      reads this
      ensures forall k :: 0 <= k < |versions| && HasKey(versions[k], jurisdiction, taxYear) ==> versions[k].version < n
      ensures (forall k :: 0 <= k < |versions| ==> !HasKey(versions[k], jurisdiction, taxYear)) ==> n == 1
      ensures n == 1 || exists k :: 0 <= k < |versions| && HasKey(versions[k], jurisdiction, taxYear)
                                    && versions[k].version == n - 1
    {
      MaxVersion(versions, jurisdiction, taxYear).GetOr(0) + 1
    }

    method NewId() returns (id: nat)
      modifies this`nextId
      ensures id == old(nextId) && nextId == old(nextId) + 1
      ensures old(Valid()) ==> Valid()
    {
      ghost var st := Statuses(versions);
      id := nextId;
      nextId := nextId + 1;
      assert Statuses(versions) == st;
    }

    /** Takes `n` consecutive ids at once, the first of them returned. */
    method ReserveIds(n: nat) returns (first: nat)
      modifies this`nextId
      ensures first == old(nextId) && nextId == old(nextId) + n
      ensures old(Valid()) ==> Valid()
    {
      ghost var st := Statuses(versions);
      first := nextId;
      nextId := nextId + n;
      assert Statuses(versions) == st;
    }

    /** `save` of a new version that is not ACTIVE. */
    method Add(v: TaxRuleVersion)
      requires Valid()
      requires v.id < nextId && v.status != Active
      requires forall k :: 0 <= k < |versions| ==> VersionsCoexist(versions[k], v)
      modifies this`versions
      ensures Valid() && versions == old(versions) + [v]
    {
      PairwiseAppend(versions, v, VersionsCoexist);
      versions := versions + [v];
    }
  }

  /** The invariant of the rule-version table survives any change that keeps the rows, their statuses and the counter's lower bound. */
  twostate lemma ValidWhenStatusesKept(repo: TaxRuleVersionRepository)
    requires old(repo.Valid())
    requires repo.versions == old(repo.versions) && repo.nextId >= old(repo.nextId)
    requires forall k :: 0 <= k < |repo.versions| ==> repo.versions[k].status == old(repo.versions[k].status)
    ensures repo.Valid()
  {
    assert Statuses(repo.versions) == old(Statuses(repo.versions));
  }

  /** A change of statuses that keeps one ACTIVE version per key keeps the invariant. */
  twostate lemma ValidWithNewStatuses(repo: TaxRuleVersionRepository)
    requires old(repo.Valid())
    requires repo.versions == old(repo.versions) && repo.nextId == old(repo.nextId)
    requires OneActivePerKey(repo.versions, Statuses(repo.versions))
    ensures repo.Valid()
  {
  }

  /** Different rows of the rule-version table are different objects. */
  lemma VersionsDistinct(repo: TaxRuleVersionRepository, i: nat, j: nat)
    requires repo.Valid() && i < |repo.versions| && j < |repo.versions| && i != j
    ensures repo.versions[i] != repo.versions[j]
  {
    if i < j {
      assert VersionsCoexist(repo.versions[i], repo.versions[j]);
    } else {
      assert VersionsCoexist(repo.versions[j], repo.versions[i]);
    }
  }

  lemma VersionsAllDistinct(repo: TaxRuleVersionRepository)
    requires repo.Valid()
    ensures forall i, j :: 0 <= i < |repo.versions| && 0 <= j < |repo.versions| && i != j ==> repo.versions[i] != repo.versions[j]
  {
    forall i, j | 0 <= i < |repo.versions| && 0 <= j < |repo.versions| && i != j
      ensures repo.versions[i] != repo.versions[j]
    {
      VersionsDistinct(repo, i, j);
    }
  }

  /** With at most one ACTIVE version per key, `findActiveRule` finds that one. */
  lemma ActiveRuleUnique(repo: TaxRuleVersionRepository, jurisdiction: string, taxYear: int, k: nat)
    requires repo.Valid()
    requires k < |repo.versions| && IsActiveFor(repo.versions[k], jurisdiction, taxYear)
    ensures repo.FindActiveRule(jurisdiction, taxYear) == Some(repo.versions[k])
  {
    var r := repo.FindActiveRule(jurisdiction, taxYear);
    var vs := repo.versions;
    var i :| 0 <= i < |vs| && vs[i] == r.value;
    var st := Statuses(vs);
    assert st[i] == Active && st[k] == Active && SameRuleKey(vs[i], vs[k]) && SameRuleKey(vs[k], vs[i]);
    assert i == k;
  }

  // ---------------------------------------------------------------------
  // Calculation runs
  // ---------------------------------------------------------------------

  function RunId(r: CalculationRun): nat { r.id }

  predicate RunsCoexist(a: CalculationRun, b: CalculationRun) { a.id != b.id }

  /** The most recently created run of a filing: the last one in table order. */
  function LatestRun(runs: seq<CalculationRun>, filingId: nat): (r: Option<CalculationRun>)
    ensures r.Some? ==> r.value in runs && r.value.filingId == filingId
    ensures r.None? <==> forall k :: 0 <= k < |runs| ==> runs[k].filingId != filingId
    decreases |runs|
  {
    if |runs| == 0 then None
    else if runs[|runs| - 1].filingId == filingId then Some(runs[|runs| - 1])
    else LatestRun(runs[..|runs| - 1], filingId)
  }

  /** The runs of a filing, newest first (`ORDER BY createdAt DESC`). */
  function RunHistory(runs: seq<CalculationRun>, filingId: nat): (r: seq<CalculationRun>)
    ensures forall k :: 0 <= k < |r| ==> r[k].filingId == filingId && r[k] in runs
    ensures forall k :: 0 <= k < |runs| && runs[k].filingId == filingId ==> runs[k] in r
    decreases |runs|
  {
    if |runs| == 0 then []
    else
      var last := runs[|runs| - 1];
      var rest := RunHistory(runs[..|runs| - 1], filingId);
      assert forall k :: 0 <= k < |runs| - 1 ==> runs[k] == runs[..|runs| - 1][k];
      if last.filingId == filingId then [last] + rest else rest
  }

  /**
   * Newest first: a run saved after the others goes to the head of its
   * filing's history, and leaves the other filings' histories alone.
   */
  lemma RunHistoryAppend(runs: seq<CalculationRun>, x: CalculationRun, filingId: nat)
    ensures RunHistory(runs + [x], filingId) == (if x.filingId == filingId then [x] else []) + RunHistory(runs, filingId)
  {
    assert (runs + [x])[..|runs|] == runs;
  }

  /** The history holds each run of the filing as often as the table does, and nothing else. */
  lemma {:induction false} RunHistoryCount(runs: seq<CalculationRun>, filingId: nat, x: CalculationRun)
    ensures multiset(RunHistory(runs, filingId))[x] == if x.filingId == filingId then multiset(runs)[x] else 0
    decreases |runs|
  {
    if |runs| > 0 {
      var init := runs[..|runs| - 1];
      var last := runs[|runs| - 1];
      var lastPart := if last.filingId == filingId then [last] else [];
      RunHistoryCount(init, filingId, x);
      RunHistoryAppend(init, last, filingId);
      assert runs == init + [last];
      calc {
        multiset(RunHistory(runs, filingId))[x];
        multiset(lastPart + RunHistory(init, filingId))[x];
        multiset(lastPart)[x] + multiset(RunHistory(init, filingId))[x];
      }
      assert multiset(runs)[x] == multiset(init)[x] + multiset([last])[x];
    }
  }

  /** The latest run is the head of the history, and there is one exactly when the history is not empty. */
  lemma {:induction false} LatestHeadsHistory(runs: seq<CalculationRun>, filingId: nat)
    ensures LatestRun(runs, filingId) == (if |RunHistory(runs, filingId)| == 0 then None
                                          else Some(RunHistory(runs, filingId)[0]))
    decreases |runs|
  {
    if |runs| > 0 && runs[|runs| - 1].filingId != filingId {
      LatestHeadsHistory(runs[..|runs| - 1], filingId);
    }
  }

  class CalculationRunRepository {
    var runs: seq<CalculationRun>
    var nextId: nat

    ghost predicate Valid()
      reads this
    {
      Pairwise(runs, RunsCoexist)
      && forall k :: 0 <= k < |runs| ==> runs[k].id < nextId
    }

    constructor()
      ensures Valid() && runs == []
    {
      runs := [];
      nextId := 0;
    }

    /** `findFirstByFilingIdOrderByCreatedAtDesc`. */
    function FindLatest(filingId: nat): (r: Option<CalculationRun>)
      reads this
      ensures r.Some? ==> r.value in runs && r.value.filingId == filingId
      ensures r.None? <==> forall k :: 0 <= k < |runs| ==> runs[k].filingId != filingId
    {
      LatestRun(runs, filingId)
    }

    /**
     * `findByFilingIdOrderByCreatedAtDesc`: the filing's runs, each as
     * often as it is stored; `Add` puts a new run at its head.
     */
    function FindHistory(filingId: nat): (r: seq<CalculationRun>)
      reads this
      ensures forall k :: 0 <= k < |r| ==> r[k].filingId == filingId
      ensures forall k :: 0 <= k < |runs| && runs[k].filingId == filingId ==> runs[k] in r
      ensures forall x :: multiset(r)[x] == if x.filingId == filingId then multiset(runs)[x] else 0
    {
      assert forall x :: multiset(RunHistory(runs, filingId))[x] == if x.filingId == filingId then multiset(runs)[x] else 0 by {
        forall x ensures multiset(RunHistory(runs, filingId))[x] == if x.filingId == filingId then multiset(runs)[x] else 0 {
          RunHistoryCount(runs, filingId, x);
        }
      }
      RunHistory(runs, filingId)
    }

    method NewId() returns (id: nat)
      modifies this`nextId
      ensures id == old(nextId) && nextId == old(nextId) + 1
      ensures old(Valid()) ==> Valid()
    {
      id := nextId;
      nextId := nextId + 1;
    }

    method Add(run: CalculationRun)
      requires Valid() && run.id < nextId
      requires forall k :: 0 <= k < |runs| ==> runs[k].id != run.id
      modifies this`runs
      ensures Valid() && runs == old(runs) + [run]
      ensures FindLatest(run.filingId) == Some(run)
      ensures forall id :: FindHistory(id) == (if run.filingId == id then [run] else []) + old(FindHistory(id))
    {
      PairwiseAppend(runs, run, RunsCoexist);
      forall id ensures RunHistory(runs + [run], id) == (if run.filingId == id then [run] else []) + RunHistory(runs, id) {
        RunHistoryAppend(runs, run, id);
      }
      runs := runs + [run];
    }

    /** A transaction rolled back: the runs saved after the first `n` are discarded. */
    method RollBackTo(n: nat)
      requires Valid() && n <= |runs|
      modifies this`runs
      ensures Valid() && runs == old(runs[..n])
    {
      runs := runs[..n];
    }

    /** The cascade of deleting a filing: its runs go, the others stay in order. */
    method RemoveForFiling(filingId: nat)
      requires Valid()
      modifies this`runs
      ensures Valid()
      ensures runs == RemoveWhereKey(old(runs), RunFilingId, filingId)
    {
      RemoveWhereKeyPairwise(runs, RunFilingId, filingId, RunsCoexist);
      runs := RemoveWhereKey(runs, RunFilingId, filingId);
    }
  }

  function RunFilingId(r: CalculationRun): nat { r.filingId }

  // ---------------------------------------------------------------------
  // Submission records
  // ---------------------------------------------------------------------

  function RecordFilingId(r: SubmissionRecord): nat { r.filing.id }

  /** Different ids, and (one-to-one with the filing) different filings. */
  predicate RecordsCoexist(a: SubmissionRecord, b: SubmissionRecord)
  {
    a.id != b.id && a.filing.id != b.filing.id
  }

  /** `findByConfirmationNumber`: the first record with that number. */
  function FindByConfirmation(records: seq<SubmissionRecord>, confirmationNumber: string): (r: Option<SubmissionRecord>)
    ensures r.Some? ==> r.value in records && r.value.confirmationNumber == confirmationNumber
    ensures r.None? <==> forall k :: 0 <= k < |records| ==> records[k].confirmationNumber != confirmationNumber
  {
    if |records| == 0 then None
    else if records[0].confirmationNumber == confirmationNumber then Some(records[0])
    else FindByConfirmation(records[1..], confirmationNumber)
  }

  class SubmissionRecordRepository {
    var records: seq<SubmissionRecord>
    var nextId: nat

    ghost predicate Valid()
      reads this
    {
      Pairwise(records, RecordsCoexist)
      && forall k :: 0 <= k < |records| ==> records[k].id < nextId
    }

    constructor()
      ensures Valid() && records == []
    {
      records := [];
      nextId := 0;
    }

    /** The filing's `submissionRecord` association. */
    function ForFiling(filingId: nat): (r: Option<SubmissionRecord>)
      reads this
      ensures r.Some? ==> r.value in records && r.value.filing.id == filingId
      ensures r.None? <==> forall k :: 0 <= k < |records| ==> records[k].filing.id != filingId
    {
      FindByKey(records, RecordFilingId, filingId)
    }

    function FindByConfirmationNumber(confirmationNumber: string): (r: Option<SubmissionRecord>)
      reads this
      ensures r.Some? ==> r.value in records && r.value.confirmationNumber == confirmationNumber
      ensures r.None? <==> forall k :: 0 <= k < |records| ==> records[k].confirmationNumber != confirmationNumber
    {
      FindByConfirmation(records, confirmationNumber)
    }

    method NewId() returns (id: nat)
      modifies this`nextId
      ensures id == old(nextId) && nextId == old(nextId) + 1
      ensures old(Valid()) ==> Valid()
      ensures old(Valid()) ==> forall k :: 0 <= k < |records| ==> records[k].id < id
    {
      id := nextId;
      nextId := nextId + 1;
    }

    method Add(record: SubmissionRecord)
      requires Valid() && record.id < nextId
      requires forall k :: 0 <= k < |records| ==> RecordsCoexist(records[k], record)
      modifies this`records
      ensures Valid() && records == old(records) + [record]
    {
      PairwiseAppend(records, record, RecordsCoexist);
      records := records + [record];
    }

    /** The cascade of deleting a filing: its record goes, the others stay in order. */
    method RemoveForFiling(filingId: nat)
      requires Valid()
      modifies this`records
      ensures Valid()
      ensures records == RemoveWhereKey(old(records), RecordFilingId, filingId)
    {
      RemoveWhereKeyPairwise(records, RecordFilingId, filingId, RecordsCoexist);
      records := RemoveWhereKey(records, RecordFilingId, filingId);
    }
  }
}
