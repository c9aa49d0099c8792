/**
 * Starting a bulk email job (`generate_bulk_emails`): check the template,
 * work out which leads to mail, enqueue the worker and record the queued job
 * in the cache. The JSON decoder, the lead query, the queue and the cache are
 * inputs; their effects are returned as data.
 */
module BulkSubmission {
  import opened Outcomes
  import opened Strings
  import opened BulkJob

  /** The `test_mode` argument as received: text, a number (booleans are the numbers 0 and 1), or anything else. */
  datatype TestModeArg = Text(s: string) | Number(x: real) | Other

  /** Whether the job runs in test mode: text "1" or any case of "true", a non-zero number, and anything else. */
  function IsTestMode(arg: TestModeArg): bool
  {
    match arg
    case Text(s) => Lower(s) == "true" || s == "1"
    case Number(x) => x != 0.0
    case Other => true
  }

  /** Text turns test mode on exactly for "1" and the sixteen spellings of "true". */
  lemma TextTestMode(s: string)
    ensures IsTestMode(Text(s))
        <==> s == "1" || (|s| == 4 && s[0] in "tT" && s[1] in "rR" && s[2] in "uU" && s[3] in "eE")
  {
    if |s| == 4 && s[0] in "tT" && s[1] in "rR" && s[2] in "uU" && s[3] in "eE" {
      assert Lower(s) == "true";
    }
    if Lower(s) == "true" {
      assert Lower(s)[0] == 't' && Lower(s)[1] == 'r' && Lower(s)[2] == 'u' && Lower(s)[3] == 'e';
    }
  }

  /** What `json.loads(selected_leads)` gave. */
  datatype SelectionParse = SelectionDecodeError(error: string) | SelectionNotList | SelectionList(names: seq<string>)

  /** What `json.loads(filter_json)` gave; the decoded filters are passed on as they are. */
  datatype FilterParse = FilterDecodeError(error: string) | FilterValue(filters: string)

  /** The lead query issued: by a list of names or by the list view's filters, with a page limit. */
  datatype LeadQuery = ByNames(names: seq<string>, limit: nat) | ByFilters(filters: string, limit: nat)

  /** The worker job as enqueued. */
  datatype EnqueueRequest = EnqueueRequest(queue: string, timeout: nat, leads: seq<LeadRef>, templateName: string, testMode: bool)

  /** The cache write of the queued job record. */
  datatype StoreRequest = StoreRequest(key: string, record: JobRecord, ttl: nat)

  /** The reply to the caller. */
  datatype SubmitResponse = SubmitResponse(success: bool, message: string, jobId: Option<string>)

  /** The reply together with the job that was enqueued and the cache write that was attempted, if any. */
  datatype Submission = Submission(response: SubmitResponse, enqueued: Option<EnqueueRequest>, stored: Option<StoreRequest>)

  /** The collaborators of the submission: decoders, the lead query, the queue, the cache, the session user and the clock. */
  datatype SubmitEnv = SubmitEnv(
    parseSelection: string -> SelectionParse,
    parseFilter: string -> FilterParse,
    fetch: LeadQuery -> Result<seq<LeadRef>, string>,
    enqueue: EnqueueRequest -> Result<string, string>,
    store: StoreRequest -> Option<string>,
    user: string,
    now: string)

  const SelectionNotListError: string := "selected_leads should be a JSON array of names."
  const NamesPageSlack: nat := 10
  const FilterPageLimit: nat := 1000
  const WorkerQueue: string := "long"
  const WorkerTimeout: nat := 3600

  /** A refusal: nothing enqueued, nothing stored. */
  function Refuse(message: string): (s: Submission)
    ensures !s.response.success && s.enqueued.None? && s.stored.None? && s.response.jobId.None?
  {
    Submission(SubmitResponse(false, message, None), None, None)
  }

  /** The query for the chosen leads: by name when names are given, else by the filters. */
  function QueryFor(selected: Option<string>, filterJson: Option<string>, env: SubmitEnv): (q: Result<LeadQuery, string>)
    ensures q.Ok? && q.value.ByNames? ==> Given(selected) && q.value.limit == |q.value.names| + NamesPageSlack
    ensures q.Ok? && q.value.ByFilters? ==> !Given(selected) && Given(filterJson) && q.value.limit == FilterPageLimit
    ensures !Given(selected) && !Given(filterJson) ==> q == Err("No leads specified for bulk email.")
  {
    if Given(selected) then
      match env.parseSelection(selected.value)
      case SelectionDecodeError(e) => Err("Invalid selected_leads format: " + e)
      case SelectionNotList => Err("Invalid selected_leads format: " + SelectionNotListError)
      case SelectionList(names) => Ok(ByNames(names, |names| + NamesPageSlack))
    else if Given(filterJson) then
      match env.parseFilter(filterJson.value)
      case FilterDecodeError(e) => Err("Invalid filter_json format: " + e)
      case FilterValue(f) => Ok(ByFilters(f, FilterPageLimit))
    else
      Err("No leads specified for bulk email.")
  }

  /** The leads to mail, or the message that ends the request. A failed query by name and one by filters are reported differently. */
  function LeadsToProcess(selected: Option<string>, filterJson: Option<string>, env: SubmitEnv): Result<seq<LeadRef>, string>
  {
    match QueryFor(selected, filterJson, env)
    case Err(m) => Err(m)
    case Ok(q) =>
      match env.fetch(q)
      case Ok(leads) => Ok(leads)
      case Err(e) =>
        if q.ByNames? then Err("Invalid selected_leads format: " + e)
        else Err("Error initiating bulk email job: " + e)
  }

  /** The job record written when the job is queued. */
  function QueuedRecord(jobId: string, count: nat, template: string, testMode: bool, user: string, now: string): JobRecord
  {
    JobRecord(jobId, "queued", count, template, testMode, Some(user), now, Some(0), [], [], None)
  }

  function StartedMessage(count: nat, template: string): string
  {
    "Bulk email job for " + NatToString(count) + " leads using template '" + template + "' has been started."
  }

  /** `generate_bulk_emails`. */
  function Submit(template: Option<string>, selected: Option<string>, filterJson: Option<string>,
                  testMode: TestModeArg, env: SubmitEnv): (s: Submission)
    ensures !Given(template) ==> s == Refuse("Please select an email template.")
    ensures s.stored.Some? ==> s.enqueued.Some?
    ensures s.enqueued.Some? ==>
      Given(template) &&
      s.enqueued.value == EnqueueRequest(WorkerQueue, WorkerTimeout, s.enqueued.value.leads, template.value, IsTestMode(testMode)) &&
      LeadsToProcess(selected, filterJson, env) == Ok(s.enqueued.value.leads) &&
      |s.enqueued.value.leads| > 0
    ensures s.stored.Some? ==>
      env.enqueue(s.enqueued.value).Ok? &&
      var id := env.enqueue(s.enqueued.value).value;
      s.stored.value == StoreRequest(JobKey(id),
        QueuedRecord(id, |s.enqueued.value.leads|, template.value, IsTestMode(testMode), env.user, env.now), JobTtlSeconds)
    ensures s.response.success <==> s.stored.Some? && env.store(s.stored.value).None?
    ensures s.response.success ==> s.response.jobId == Some(s.stored.value.record.jobId)
    ensures !s.response.success ==> s.response.jobId.None?
    ensures s.response.success ==> s.response.message == StartedMessage(|s.enqueued.value.leads|, template.value)
    // A request that names a template and finds leads is enqueued, and its record stored once the queue accepts it.
    ensures Given(template) && LeadsToProcess(selected, filterJson, env).Ok? && |LeadsToProcess(selected, filterJson, env).value| > 0 ==>
      s.enqueued == Some(EnqueueRequest(WorkerQueue, WorkerTimeout, LeadsToProcess(selected, filterJson, env).value,
                                        template.value, IsTestMode(testMode)))
    ensures s.enqueued.Some? && env.enqueue(s.enqueued.value).Ok? ==> s.stored.Some?
    // The refusals and their messages.
    ensures Given(template) && LeadsToProcess(selected, filterJson, env).Err? ==>
      s == Refuse(LeadsToProcess(selected, filterJson, env).error)
    ensures Given(template) && LeadsToProcess(selected, filterJson, env) == Ok([]) ==>
      s == Refuse("No leads found to send emails to.")
    ensures s.enqueued.Some? && env.enqueue(s.enqueued.value).Err? ==>
      s.response.message == "Error initiating bulk email job: " + env.enqueue(s.enqueued.value).error
    ensures s.stored.Some? && env.store(s.stored.value).Some? ==>
      s.response.message == "Error initiating bulk email job: " + env.store(s.stored.value).value
  {
    if !Given(template) then Refuse("Please select an email template.")
    else
      match LeadsToProcess(selected, filterJson, env)
      case Err(m) => Refuse(m)
      case Ok(leads) =>
        if |leads| == 0 then Refuse("No leads found to send emails to.")
        else
          var job := EnqueueRequest(WorkerQueue, WorkerTimeout, leads, template.value, IsTestMode(testMode));
          match env.enqueue(job)
          case Err(e) =>
            Submission(SubmitResponse(false, "Error initiating bulk email job: " + e, None), Some(job), None)
          case Ok(id) =>
            var write := StoreRequest(JobKey(id), QueuedRecord(id, |leads|, template.value, job.testMode, env.user, env.now), JobTtlSeconds);
            match env.store(write)
            case Some(e) =>
              Submission(SubmitResponse(false, "Error initiating bulk email job: " + e, None), Some(job), Some(write))
            case None =>
              Submission(SubmitResponse(true, StartedMessage(|leads|, template.value), Some(id)), Some(job), Some(write))
  }
}
