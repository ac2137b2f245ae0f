// The row `submitFiling` writes: which filing was submitted, on which
// calculation run, under which confirmation number and by whom.
module SubmissionRecords {
  import opened Wrappers
  import opened Filings
  import opened CalculationRuns

  /**
   * The record holds its filing and its run as the entity's associations
   * do: the filing by reference, the run (which is never changed once
   * saved) by value.
   */
  datatype SubmissionRecord = SubmissionRecord(
    id: nat,
    filing: TaxFiling,
    calculationRun: CalculationRun,
    confirmationNumber: string,
    submittedBy: nat,
    /** Taken from the request; absent when the request itself is absent. */
    ipAddress: Option<string>,
    userAgent: Option<string>)
}
