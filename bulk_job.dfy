/**
 * The record a bulk email job keeps in the cache under its key: who started
 * it, how far it has got, and one entry per lead that succeeded or failed.
 */
module BulkJob {
  import opened Outcomes
  import opened Strings

  const JobKeyPrefix: string := "crm:bulk_email:job:"
  /** Every write of a job record sets a 24-hour expiry. */
  const JobTtlSeconds: nat := 86400

  /** A lead for which an email was sent. */
  datatype SuccessEntry = SuccessEntry(name: string, communicationId: Option<string>)

  /** A lead for which no email was sent; `communicationId` is `None` when the entry carries none. */
  datatype FailureEntry = FailureEntry(name: string, error: string, communicationId: Option<string>)

  /**
   * The cached job record. `user` and `progress` are `None` when the key is
   * absent from the record; `completedAt` is set when the worker finishes.
   */
  datatype JobRecord = JobRecord(
    jobId: string,
    status: string,
    leadsCount: nat,
    templateName: string,
    testMode: bool,
    user: Option<string>,
    timestamp: string,
    progress: Option<nat>,
    successful: seq<SuccessEntry>,
    failed: seq<FailureEntry>,
    completedAt: Option<string>)

  /** A lead row as handed to the worker: only its name and email were fetched. */
  datatype LeadRef = LeadRef(name: Option<string>, email: Option<string>)

  /** The cache key of a job; the job id can be read back from it. */
  function JobKey(jobId: string): (key: string)
    ensures StartsWith(key, JobKeyPrefix) && key[|JobKeyPrefix|..] == jobId
  {
    JobKeyPrefix + jobId
  }

  /** Distinct jobs never share a cache entry. */
  lemma JobKeyInjective(a: string, b: string)
    requires JobKey(a) == JobKey(b)
    ensures a == b
  {
    assert a == JobKey(a)[|JobKeyPrefix|..];
  }
}
