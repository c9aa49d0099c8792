/**
 * The bulk email worker (`process_bulk_emails`): mark the job running, then
 * mail the leads one by one, recording a success or failure entry and the
 * progress after each, and finally mark the job completed. What the per-lead
 * email step returned (or raised) is an input, one outcome per lead; the
 * cache writes are returned as the sequence of records written.
 */
module BulkWorker {
  import opened Outcomes
  import opened Strings
  import opened BulkJob

  /** What the per-lead email step did: returned a reply (whose `message` key may be absent), or raised. */
  datatype LeadOutcome = Returned(success: bool, message: Option<string>, communicationId: Option<string>) | Raised(error: string)

  /** The one entry a lead contributes to the job. */
  datatype Entry = Succeeded(success: SuccessEntry) | Failed(failure: FailureEntry)

  /** The value the worker returns. */
  datatype WorkerSummary = WorkerSummary(success: bool, message: string, successful: seq<SuccessEntry>, failed: seq<FailureEntry>)

  const UnknownLeadFailure: FailureEntry := FailureEntry("Unknown", "Missing lead name in data", None)
  const NoMessageError: string := "Unknown error during processing"

  /** A lead row whose name is present and non-empty; others are skipped. */
  predicate Named(lead: LeadRef)
  {
    lead.name.Some? && lead.name.value != ""
  }

  /** The entry recorded for one lead. */
  function Classify(lead: LeadRef, outcome: LeadOutcome): (e: Entry)
    ensures e.Succeeded? <==> Named(lead) && outcome.Returned? && outcome.success
    ensures !Named(lead) ==> e == Failed(UnknownLeadFailure)
    ensures Named(lead) && e.Succeeded? ==> e.success == SuccessEntry(lead.name.value, outcome.communicationId)
    ensures Named(lead) && e.Failed? ==> e.failure.name == lead.name.value
  {
    if !Named(lead) then Failed(UnknownLeadFailure)
    else
      match outcome
      case Returned(ok, message, comm) =>
        if ok then Succeeded(SuccessEntry(lead.name.value, comm))
        else Failed(FailureEntry(lead.name.value, if message.Some? then message.value else NoMessageError, comm))
      case Raised(error) => Failed(FailureEntry(lead.name.value, "Loop error: " + error, None))
  }

  /** The success entries of the first `k` leads, in order. */
  function Successes(leads: seq<LeadRef>, outcomes: seq<LeadOutcome>, k: nat): seq<SuccessEntry>
    requires k <= |leads| == |outcomes|
  {
    if k == 0 then []
    else
      var e := Classify(leads[k - 1], outcomes[k - 1]);
      Successes(leads, outcomes, k - 1) + (if e.Succeeded? then [e.success] else [])
  }

  /** The failure entries of the first `k` leads, in order. */
  function Failures(leads: seq<LeadRef>, outcomes: seq<LeadOutcome>, k: nat): seq<FailureEntry>
    requires k <= |leads| == |outcomes|
  {
    if k == 0 then []
    else
      var e := Classify(leads[k - 1], outcomes[k - 1]);
      Failures(leads, outcomes, k - 1) + (if e.Failed? then [e.failure] else [])
  }

  /** How many of the first `k` leads have a name. */
  function NamedCount(leads: seq<LeadRef>, k: nat): nat
    requires k <= |leads|
  {
    if k == 0 then 0 else NamedCount(leads, k - 1) + (if Named(leads[k - 1]) then 1 else 0)
  }

  /** Percentage done once lead `i` of `n` is reached, truncated. */
  function Progress(i: nat, n: nat): nat
    requires i < n
  {
    (i + 1) * 100 / n
  }

  /** The record as marked running: the cached record, if any, with the job's parameters over it. */
  function StartRecord(jobId: string, cached: Option<JobRecord>, count: nat, template: string, testMode: bool, now: string): JobRecord
  {
    match cached
    case None => JobRecord(jobId, "running", count, template, testMode, None, now, None, [], [], None)
    case Some(c) => c.(jobId := jobId, status := "running", leadsCount := count, templateName := template, testMode := testMode)
  }

  /** The record after the first `k` leads. */
  function AfterLeads(start: JobRecord, leads: seq<LeadRef>, outcomes: seq<LeadOutcome>, k: nat): JobRecord
    requires k <= |leads| == |outcomes|
  {
    start.(progress := if k == 0 then start.progress else Some(Progress(k - 1, |leads|)),
           successful := start.successful + Successes(leads, outcomes, k),
           failed := start.failed + Failures(leads, outcomes, k))
  }

  /** The records written by the time the first `k` leads are done: the running record, then one per named lead. */
  function Writes(start: JobRecord, leads: seq<LeadRef>, outcomes: seq<LeadOutcome>, k: nat): seq<JobRecord>
    requires k <= |leads| == |outcomes|
  {
    if k == 0 then [start]
    else Writes(start, leads, outcomes, k - 1) + (if Named(leads[k - 1]) then [AfterLeads(start, leads, outcomes, k)] else [])
  }

  /** The record as marked finished. */
  function FinalRecord(start: JobRecord, leads: seq<LeadRef>, outcomes: seq<LeadOutcome>, finishedAt: string): JobRecord
    requires |leads| == |outcomes|
  {
    var done := AfterLeads(start, leads, outcomes, |leads|);
    done.(status := if done.failed == [] then "completed" else "completed_with_errors",
          progress := Some(100),
          completedAt := Some(finishedAt))
  }

  function SummaryOf(job: JobRecord, count: nat): WorkerSummary
  {
    WorkerSummary(job.failed == [],
      "Processed " + NatToString(count) + " leads. Success: " + NatToString(|job.successful|)
        + ", Failed: " + NatToString(|job.failed|),
      job.successful, job.failed)
  }

  /** The record with one more lead's entry and its progress. */
  function WithEntry(job: JobRecord, e: Entry, progress: nat): JobRecord
  {
    job.(progress := Some(progress),
         successful := job.successful + (if e.Succeeded? then [e.success] else []),
         failed := job.failed + (if e.Failed? then [e.failure] else []))
  }

  /** One more lead takes the record a step further. */
  lemma AfterLeadsStep(start: JobRecord, leads: seq<LeadRef>, outcomes: seq<LeadOutcome>, i: nat)
    requires i < |leads| == |outcomes|
    ensures AfterLeads(start, leads, outcomes, i + 1)
            == WithEntry(AfterLeads(start, leads, outcomes, i), Classify(leads[i], outcomes[i]), Progress(i, |leads|))
  {
    var e := Classify(leads[i], outcomes[i]);
    assert start.successful + Successes(leads, outcomes, i + 1)
        == start.successful + Successes(leads, outcomes, i) + (if e.Succeeded? then [e.success] else []);
    assert start.failed + Failures(leads, outcomes, i + 1)
        == start.failed + Failures(leads, outcomes, i) + (if e.Failed? then [e.failure] else []);
  }

  /** The body of the worker's loop for one lead: its progress, then its entry. */
  method RecordLead(job: JobRecord, lead: LeadRef, outcome: LeadOutcome, progress: nat) returns (next: JobRecord)
    ensures next == WithEntry(job, Classify(lead, outcome), progress)
  {
    next := job.(progress := Some(progress));
    if lead.name.None? || lead.name.value == "" {
      next := next.(failed := next.failed + [UnknownLeadFailure]);
    } else {
      var name := lead.name.value;
      match outcome {
        case Returned(ok, message, comm) =>
          if ok {
            next := next.(successful := next.successful + [SuccessEntry(name, comm)]);
          } else {
            var error := if message.Some? then message.value else NoMessageError;
            next := next.(failed := next.failed + [FailureEntry(name, error, comm)]);
          }
        case Raised(e) =>
          next := next.(failed := next.failed + [FailureEntry(name, "Loop error: " + e, None)]);
      }
    }
  }

  /** The writes that reach the cache when write number `failingWrite` (counting from 0) raises: those before it. */
  function StoredWrites(all: seq<JobRecord>, failingWrite: Option<nat>): (w: seq<JobRecord>)
    ensures |w| <= |all| && w == all[..|w|]
    ensures failingWrite.Some? && failingWrite.value < |all| ==> |w| == failingWrite.value
    ensures !(failingWrite.Some? && failingWrite.value < |all|) ==> w == all
  {
    if failingWrite.Some? && failingWrite.value < |all| then all[..failingWrite.value] else all
  }

  /** The records written for the first `i` leads begin the records written for the first `j`. */
  lemma {:induction false} WritesPrefix(start: JobRecord, leads: seq<LeadRef>, outcomes: seq<LeadOutcome>, i: nat, j: nat)
    requires i <= j <= |leads| == |outcomes|
    ensures |Writes(start, leads, outcomes, i)| <= |Writes(start, leads, outcomes, j)|
    ensures Writes(start, leads, outcomes, j)[..|Writes(start, leads, outcomes, i)|] == Writes(start, leads, outcomes, i)
    decreases j
  {
    if i < j {
      WritesPrefix(start, leads, outcomes, i, j - 1);
      var w := Writes(start, leads, outcomes, j - 1);
      var n := |Writes(start, leads, outcomes, i)|;
      var extra := if Named(leads[j - 1]) then [AfterLeads(start, leads, outcomes, j)] else [];
      assert Writes(start, leads, outcomes, j) == w + extra;
      assert (w + extra)[..n] == w[..n];
    }
  }

  /** A prefix of a series is a prefix of the series with one more record. */
  lemma PrefixOfLonger(w: seq<JobRecord>, last: JobRecord, k: nat)
    requires k <= |w|
    ensures (w + [last])[..k] == w[..k]
  {
  }

  /**
   * The loop of `process_bulk_emails` over the leads, after the running record
   * was written. It stops when a write raises (`stopped`), having written a
   * prefix of the loop's writes; otherwise every lead is done.
   */
  method MailLeads(start: JobRecord, leads: seq<LeadRef>, outcomes: seq<LeadOutcome>, failingWrite: Option<nat>)
    returns (job: JobRecord, writes: seq<JobRecord>, stopped: bool)
    requires |outcomes| == |leads| && failingWrite != Some(0)
    ensures var whole := Writes(start, leads, outcomes, |leads|);
      && |writes| <= |whole| && writes == whole[..|writes|]
      && (stopped ==> failingWrite == Some(|writes|))
      && (!stopped ==> job == AfterLeads(start, leads, outcomes, |leads|) && writes == whole
                       && !(failingWrite.Some? && failingWrite.value < |writes|))
  {
    job := start;
    writes := [start];
    stopped := false;
    var total := |leads|;
    var i := 0;
    while i < total
      invariant 0 <= i <= total
      invariant job == AfterLeads(start, leads, outcomes, i)
      invariant writes == Writes(start, leads, outcomes, i)
      invariant !(failingWrite.Some? && failingWrite.value < |writes|)
    {
      AfterLeadsStep(start, leads, outcomes, i);
      job := RecordLead(job, leads[i], outcomes[i], (i + 1) * 100 / total);
      if leads[i].name.Some? && leads[i].name.value != "" {
        if failingWrite == Some(|writes|) {
          WritesPrefix(start, leads, outcomes, i, total);
          return job, writes, true;
        }
        writes := writes + [job];
      }
      i := i + 1;
    }
  }

  /**
   * `process_bulk_emails`. Every cache write is counted; `failingWrite` is
   * the number of the write that raises, if any. Returns the final record,
   * the records that reached the job's cache key in order, and the summary,
   * which is absent when a write raised: the exception ends the run there and
   * the leads after it are not mailed.
   */
  method ProcessBulkEmails(jobId: string, leads: seq<LeadRef>, template: string, testMode: bool,
                           cached: Option<JobRecord>, now: string, finishedAt: string, outcomes: seq<LeadOutcome>,
                           failingWrite: Option<nat>)
    returns (job: JobRecord, writes: seq<JobRecord>, summary: Option<WorkerSummary>)
    requires |outcomes| == |leads|
    ensures var start := StartRecord(jobId, cached, |leads|, template, testMode, now);
      var all := Writes(start, leads, outcomes, |leads|) + [FinalRecord(start, leads, outcomes, finishedAt)];
      && writes == StoredWrites(all, failingWrite)
      && (summary.Some? <==> writes == all)
      && (summary.Some? ==> job == FinalRecord(start, leads, outcomes, finishedAt) && summary.value == SummaryOf(job, |leads|))
  {
    job := StartRecord(jobId, cached, |leads|, template, testMode, now);
    var start := job;
    ghost var whole := Writes(start, leads, outcomes, |leads|);
    ghost var last := FinalRecord(start, leads, outcomes, finishedAt);
    if failingWrite == Some(0) {
      return job, [], None;
    }
    var stopped;
    job, writes, stopped := MailLeads(start, leads, outcomes, failingWrite);
    PrefixOfLonger(whole, last, |writes|);
    if stopped || failingWrite == Some(|writes|) {
      return job, writes, None;
    }
    job := job.(status := if job.failed == [] then "completed" else "completed_with_errors",
                progress := Some(100),
                completedAt := Some(finishedAt));
    writes := writes + [job];
    summary := Some(SummaryOf(job, |leads|));
  }

  /** Every record written during the loop keeps the running record's status. */
  lemma {:induction false} WritesKeepStatus(start: JobRecord, leads: seq<LeadRef>, outcomes: seq<LeadOutcome>, k: nat)
    requires k <= |leads| == |outcomes|
    ensures forall j :: 0 <= j < |Writes(start, leads, outcomes, k)| ==> Writes(start, leads, outcomes, k)[j].status == start.status
  {
    if k > 0 {
      WritesKeepStatus(start, leads, outcomes, k - 1);
    }
  }

  /** When a write after the first raises, the job's cached record is left `running`: it never reaches a completed status. */
  lemma StoppedRunStaysRunning(jobId: string, leads: seq<LeadRef>, template: string, testMode: bool,
                               cached: Option<JobRecord>, now: string, finishedAt: string, outcomes: seq<LeadOutcome>, k: nat)
    requires |outcomes| == |leads|
    requires var start := StartRecord(jobId, cached, |leads|, template, testMode, now);
      0 < k < |Writes(start, leads, outcomes, |leads|)| + 1
    ensures var start := StartRecord(jobId, cached, |leads|, template, testMode, now);
      var w := StoredWrites(Writes(start, leads, outcomes, |leads|) + [FinalRecord(start, leads, outcomes, finishedAt)], Some(k));
      |w| == k && w[k - 1].status == "running"
  {
    var start := StartRecord(jobId, cached, |leads|, template, testMode, now);
    var whole := Writes(start, leads, outcomes, |leads|);
    WritesKeepStatus(start, leads, outcomes, |leads|);
    assert (whole + [FinalRecord(start, leads, outcomes, finishedAt)])[k - 1] == whole[k - 1];
  }

  /** Every lead contributes exactly one entry, whatever happened to the others: a raised error does not end the run. */
  lemma {:induction false} EveryLeadRecordedOnce(leads: seq<LeadRef>, outcomes: seq<LeadOutcome>, k: nat)
    requires k <= |leads| == |outcomes|
    ensures |Successes(leads, outcomes, k)| + |Failures(leads, outcomes, k)| == k
  {
    if k > 0 {
      EveryLeadRecordedOnce(leads, outcomes, k - 1);
    }
  }

  /** No failure entry exactly when every lead had a name and its email step returned success. */
  lemma {:induction false} NoFailuresIff(leads: seq<LeadRef>, outcomes: seq<LeadOutcome>, k: nat)
    requires k <= |leads| == |outcomes|
    ensures Failures(leads, outcomes, k) == []
        <==> forall j :: 0 <= j < k ==> Named(leads[j]) && outcomes[j].Returned? && outcomes[j].success
  {
    if k > 0 {
      NoFailuresIff(leads, outcomes, k - 1);
      var e := Classify(leads[k - 1], outcomes[k - 1]);
      if e.Failed? {
        assert Failures(leads, outcomes, k)[|Failures(leads, outcomes, k)| - 1] == e.failure;
      }
    }
  }

  /** The job ends "completed" exactly when the cached record held no failure and every lead was mailed. */
  lemma JobCompletedIff(start: JobRecord, leads: seq<LeadRef>, outcomes: seq<LeadOutcome>, finishedAt: string)
    requires |leads| == |outcomes|
    ensures FinalRecord(start, leads, outcomes, finishedAt).status == "completed"
        <==> start.failed == [] &&
             forall j :: 0 <= j < |leads| ==> Named(leads[j]) && outcomes[j].Returned? && outcomes[j].success
    ensures FinalRecord(start, leads, outcomes, finishedAt).status != "completed"
        ==> FinalRecord(start, leads, outcomes, finishedAt).status == "completed_with_errors"
  {
    NoFailuresIff(leads, outcomes, |leads|);
    var f := Failures(leads, outcomes, |leads|);
    assert |start.failed + f| == |start.failed| + |f|;
  }

  /** The running record is written first, then one record per named lead (skipped leads write nothing). */
  lemma {:induction false} WritesCount(start: JobRecord, leads: seq<LeadRef>, outcomes: seq<LeadOutcome>, k: nat)
    requires k <= |leads| == |outcomes|
    ensures |Writes(start, leads, outcomes, k)| == NamedCount(leads, k) + 1
    ensures Writes(start, leads, outcomes, k)[0] == start
  {
    if k > 0 {
      WritesCount(start, leads, outcomes, k - 1);
    }
  }

  /** Truncated progress never goes down from one lead to a later one. */
  lemma ProgressMonotone(i: nat, j: nat, n: nat)
    requires i <= j < n
    ensures Progress(i, n) <= Progress(j, n)
  {
    DivMonotone((i + 1) * 100, (j + 1) * 100, n);
  }

  lemma DivMonotone(a: nat, b: nat, n: nat)
    requires a <= b && n > 0
    ensures a / n <= b / n
  {
    var qa, qb := a / n, b / n;
    assert qa * n <= a;
    assert b < qb * n + n;
    assert qb * n + n == (qb + 1) * n;
    MulLessCancel(qa, qb + 1, n);
  }

  lemma MulLessCancel(x: int, y: int, n: nat)
    requires n > 0 && x * n < y * n
    ensures x < y
  {
  }

  /** Progress stays within 0..100 and reaches 100 at the last lead. */
  lemma ProgressBounds(i: nat, n: nat)
    requires i < n
    ensures Progress(i, n) <= 100
    ensures i == n - 1 ==> Progress(i, n) == 100
  {
    assert (i + 1) * 100 <= n * 100;
    MulDivCancel(n);
    ProgressMonotone(i, n - 1, n);
  }

  lemma MulDivCancel(n: nat)
    requires n > 0
    ensures n * 100 / n == 100
  {
  }

  /** Every record after the first carries a progress value, none above `cap`. */
  predicate ProgressCapped(w: seq<JobRecord>, cap: int)
  {
    forall a :: 1 <= a < |w| ==> w[a].progress.Some? && w[a].progress.value <= cap
  }

  /** From the second record on, the progress values never decrease. */
  predicate ProgressOrdered(w: seq<JobRecord>)
  {
    forall a, b :: 1 <= a <= b < |w| ==> w[a].progress.Some? && w[b].progress.Some? && w[a].progress.value <= w[b].progress.value
  }

  /** Every record written after the running one carries the progress of a lead already done: never less than before, at most 100. */
  lemma {:induction false} WritesProgressOrdered(start: JobRecord, leads: seq<LeadRef>, outcomes: seq<LeadOutcome>, k: nat)
    requires k <= |leads| == |outcomes|
    ensures k > 0 ==> ProgressCapped(Writes(start, leads, outcomes, k), Progress(k - 1, |leads|))
    ensures ProgressCapped(Writes(start, leads, outcomes, k), 100)
    ensures ProgressOrdered(Writes(start, leads, outcomes, k))
  {
    var w := Writes(start, leads, outcomes, k);
    if k == 0 {
      assert |w| == 1;
    } else {
      var n := |leads|;
      var w0 := Writes(start, leads, outcomes, k - 1);
      var cap := Progress(k - 1, n);
      WritesProgressOrdered(start, leads, outcomes, k - 1);
      ProgressBounds(k - 1, n);
      if k > 1 {
        ProgressMonotone(k - 2, k - 1, n);
        assert ProgressCapped(w0, cap);
      } else {
        WritesCount(start, leads, outcomes, 0);
        assert ProgressCapped(w0, cap);
      }
      if Named(leads[k - 1]) {
        assert w == w0 + [AfterLeads(start, leads, outcomes, k)];
        assert w[|w| - 1].progress == Some(cap);
        assert ProgressCapped(w, cap);
        assert ProgressOrdered(w);
      } else {
        assert w == w0;
      }
    }
  }

  /** Across the whole run, from the second write on, progress never decreases and ends at 100. */
  lemma RunProgressOrdered(start: JobRecord, leads: seq<LeadRef>, outcomes: seq<LeadOutcome>, finishedAt: string)
    requires |leads| == |outcomes|
    ensures var w := Writes(start, leads, outcomes, |leads|) + [FinalRecord(start, leads, outcomes, finishedAt)];
      ProgressOrdered(w) && w[|w| - 1].progress == Some(100)
  {
    var w0 := Writes(start, leads, outcomes, |leads|);
    var w := w0 + [FinalRecord(start, leads, outcomes, finishedAt)];
    WritesProgressOrdered(start, leads, outcomes, |leads|);
    assert ProgressCapped(w, 100);
  }
}
