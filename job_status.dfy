/**
 * Reading a bulk email job's status (`get_bulk_email_job_status`): find the
 * queue job under its id (or the id with the site prefix added or removed, or
 * in one of the standard queues), find its cached record under one of the
 * candidate keys, and merge the two into a status record with defaults. The
 * queue, the cache and the raw Redis store are inputs.
 */
module JobStatus {
  import opened Outcomes
  import opened Strings
  import opened BulkJob

  const SiteSeparator: string := "||"
  const LegacyKeyPrefix: string := "bulk_email_job_"
  const ScannedQueues: seq<string> := ["default", "long", "short", "failed", "finished"]

  /** The part between the first and the second `||`, or after the first when there is only one (`job_id.split("||")[1]`). */
  function SecondSegment(jobId: string): string
    requires Contains(jobId, SiteSeparator)
  {
    Split(jobId, SiteSeparator)[1]
  }

  /** The other spelling of a job id: without the site prefix if it has one, with it if not. */
  function AlternateId(jobId: string, site: string): string
  {
    if Contains(jobId, SiteSeparator) then SecondSegment(jobId) else site + SiteSeparator + jobId
  }

  /** The cache keys tried, in order; the key the submission writes comes first. */
  function CandidateKeys(jobId: string, site: string): (keys: seq<string>)
    ensures |keys| >= 3 && keys[0] == JobKey(jobId)
    ensures Contains(jobId, SiteSeparator) ==> keys == [JobKey(jobId), JobKey(AlternateId(jobId, site)),
                                                         LegacyKeyPrefix + jobId, LegacyKeyPrefix + AlternateId(jobId, site)]
    ensures !Contains(jobId, SiteSeparator) ==> keys == [JobKey(jobId), JobKey(AlternateId(jobId, site)), LegacyKeyPrefix + jobId]
  {
    if Contains(jobId, SiteSeparator) then
      var simple := SecondSegment(jobId);
      [JobKey(jobId), JobKey(simple), LegacyKeyPrefix + jobId, LegacyKeyPrefix + simple]
    else
      [JobKey(jobId), JobKey(site + SiteSeparator + jobId), LegacyKeyPrefix + jobId]
  }

  lemma NoBarNoSeparator(s: string)
    requires '|' !in s
    ensures !Contains(s, SiteSeparator)
  {
    forall i | 0 <= i <= |s| - 2
      ensures !MatchAt(s, SiteSeparator, i)
    {
      assert s[i..i + 2][0] == s[i];
    }
  }

  /** Splitting `site || id` on `||` gives back the site and the id, when neither holds a bar. */
  lemma SplitPrefixed(site: string, id: string)
    requires '|' !in site && '|' !in id
    ensures Split(site + SiteSeparator + id, SiteSeparator) == [site, id]
  {
    var s := site + SiteSeparator + id;
    assert s[|site|..|site| + 2] == SiteSeparator;
    assert MatchAt(s, SiteSeparator, |site|);
    forall i | 0 <= i < |site|
      ensures !MatchAt(s, SiteSeparator, i)
    {
      assert s[i..i + 2][0] == site[i];
    }
    assert Find(s, SiteSeparator) == Some(|site|);
    assert s[|site| + 2..] == id;
    assert s[..|site|] == site;
    NoBarNoSeparator(id);
    assert Find(id, SiteSeparator).None?;
    assert Split(id, SiteSeparator) == [id];
  }

  /** Adding the site prefix and taking it off again gives the id back, and the other way round. */
  lemma AlternateIdRoundTrip(site: string, id: string)
    requires '|' !in site && '|' !in id
    ensures AlternateId(AlternateId(id, site), site) == id
    ensures AlternateId(site + SiteSeparator + id, site) == id
  {
    NoBarNoSeparator(id);
    SplitPrefixed(site, id);
    ContainsSuffix(site, SiteSeparator);
    ContainsPrefix(site + SiteSeparator, id, SiteSeparator);
  }

  /** The fields of a cached job record the reader looks at; `None` where the key is absent. */
  datatype MetaRecord = MetaRecord(leadsCount: Option<nat>, progress: Option<nat>, successful: Option<seq<SuccessEntry>>,
                                   failed: Option<seq<FailureEntry>>, error: Option<string>)

  /** Decoded job metadata: a dict, or some other JSON value (with its truth value and Python type name). */
  datatype Meta = MetaDict(record: MetaRecord) | MetaNonDict(truthy: bool, typeName: string)

  /** `frappe.cache().get_value(key)`: nothing (or a falsy value), a dict, other data to decode, or an exception. */
  datatype CacheRead = CacheEmpty | CacheDict(record: MetaRecord) | CacheText(text: string) | CacheRaised(error: string)

  /** `conn.get(key)`: nothing, bytes to decode, or an exception. */
  datatype RedisRead = RedisEmpty | RedisText(text: string) | RedisRaised(error: string)

  /** `json.loads`: the decoded value, or `None` when decoding fails. */
  type MetaParser = string -> Option<Meta>

  /** The first metadata found, trying each key in order: the cache, then the raw store. */
  function FindMeta(keys: seq<string>, cache: string -> CacheRead, redis: string -> RedisRead, parse: MetaParser): Option<Meta>
  {
    if keys == [] then None
    else
      match cache(keys[0])
      case CacheRaised(_) => FindMeta(keys[1..], cache, redis, parse)
      case CacheDict(m) => Some(MetaDict(m))
      case CacheText(t) => parse(t)
      case CacheEmpty =>
        match redis(keys[0])
        case RedisText(t) =>
          if parse(t).Some? then parse(t) else FindMeta(keys[1..], cache, redis, parse)
        case _ => FindMeta(keys[1..], cache, redis, parse)
  }

  /** The key loop of the status reader: stops at the first key the cache holds, or the first key the raw store decodes. */
  method LookupMeta(keys: seq<string>, cache: string -> CacheRead, redis: string -> RedisRead, parse: MetaParser)
    returns (meta: Option<Meta>)
    ensures meta == FindMeta(keys, cache, redis, parse)
  {
    meta := None;
    var i := 0;
    while i < |keys|
      invariant 0 <= i <= |keys|
      invariant FindMeta(keys, cache, redis, parse) == FindMeta(keys[i..], cache, redis, parse)
      invariant meta == None
    {
      var key := keys[i];
      assert keys[i..][1..] == keys[i + 1..];
      match cache(key) {
        case CacheRaised(_) =>
        case CacheDict(m) =>
          return Some(MetaDict(m));
        case CacheText(t) =>
          return parse(t);
        case CacheEmpty =>
          match redis(key) {
            case RedisText(t) =>
              if parse(t).Some? {
                return parse(t);
              }
            case RedisEmpty =>
            case RedisRaised(_) =>
          }
      }
      i := i + 1;
    }
  }

  /** The record the submission caches, as the reader sees it. */
  function MetaOf(job: JobRecord): MetaRecord
  {
    MetaRecord(Some(job.leadsCount), job.progress, Some(job.successful), Some(job.failed), None)
  }

  /** A job in the queue: its status (`None` when `get_status` raises) and its `exc_info`. */
  datatype QueueJob = QueueJob(status: Option<string>, excInfo: Option<string>)

  /** `Queue(name).fetch_job(id)`: a job, none, or an exception. */
  datatype QueueRead = QueueHit(job: QueueJob) | QueueMiss | QueueRaised(error: string)

  /** The first standard queue that holds the job. */
  function ScanQueues(queues: seq<string>, jobId: string, fetchFrom: (string, string) -> QueueRead): Option<QueueJob>
  {
    if queues == [] then None
    else if fetchFrom(queues[0], jobId).QueueHit? then Some(fetchFrom(queues[0], jobId).job)
    else ScanQueues(queues[1..], jobId, fetchFrom)
  }

  /** The queue job: fetched by id, else by the alternate id, else found in a standard queue. */
  function ResolveJob(jobId: string, site: string, fetch: string -> Option<QueueJob>,
                      fetchFrom: (string, string) -> QueueRead): (job: Option<QueueJob>)
    ensures fetch(jobId).Some? ==> job == fetch(jobId)
    ensures fetch(jobId).None? && fetch(AlternateId(jobId, site)).Some? ==> job == fetch(AlternateId(jobId, site))
    ensures fetch(jobId).None? && fetch(AlternateId(jobId, site)).None? ==> job == ScanQueues(ScannedQueues, jobId, fetchFrom)
    ensures job.None? ==> fetch(jobId).None? && fetch(AlternateId(jobId, site)).None?
  {
    if fetch(jobId).Some? then fetch(jobId)
    else if fetch(AlternateId(jobId, site)).Some? then fetch(AlternateId(jobId, site))
    else ScanQueues(ScannedQueues, jobId, fetchFrom)
  }

  /** The queue scan, a loop that stops at the first queue holding the job. */
  method ScanStandardQueues(jobId: string, fetchFrom: (string, string) -> QueueRead) returns (job: Option<QueueJob>)
    ensures job == ScanQueues(ScannedQueues, jobId, fetchFrom)
    ensures job.Some? ==> exists q :: q in ScannedQueues && fetchFrom(q, jobId) == QueueHit(job.value)
  {
    var queues := ScannedQueues;
    var i := 0;
    while i < |queues|
      invariant 0 <= i <= |queues|
      invariant ScanQueues(queues, jobId, fetchFrom) == ScanQueues(queues[i..], jobId, fetchFrom)
    {
      assert queues[i..][1..] == queues[i + 1..];
      var read := fetchFrom(queues[i], jobId);
      if read.QueueHit? {
        return Some(read.job);
      }
      i := i + 1;
    }
    return None;
  }

  /** The status record returned. */
  datatype JobStatusData = JobStatusData(jobId: string, leadsCount: nat, status: string, progress: nat, timestamp: string,
                                         successful: seq<SuccessEntry>, failed: seq<FailureEntry>, error: Option<string>)

  /** The reply: the id was missing, the status record, or the exception met on the way. */
  datatype StatusReply = JobIdRequired | StatusFound(data: JobStatusData) | StatusFailed(message: string, jobId: string, status: string)

  function ValueOr<T>(o: Option<T>, default: T): T
  {
    if o.Some? then o.value else default
  }

  /** The queue's status word: "not_found" without a job, "error" when asking it raises. */
  function QueueStatus(job: Option<QueueJob>): (s: string)
    ensures job.None? ==> s == "not_found"
    ensures job.Some? && job.value.status.None? ==> s == "error"
    ensures job.Some? && job.value.status.Some? ==> s == job.value.status.value
  {
    if job.None? then "not_found"
    else if job.value.status.None? then "error"
    else job.value.status.value
  }

  /** Queue status and cached record merged, with 0, 0, [] and [] where the record is absent or lacks a field. */
  function Merge(jobId: string, job: Option<QueueJob>, meta: Option<Meta>, now: string): (r: Result<JobStatusData, string>)
    ensures r.Err? <==> meta.Some? && meta.value.MetaNonDict? && meta.value.truthy
    ensures r.Ok? ==> r.value.jobId == jobId && r.value.status == QueueStatus(job) && r.value.timestamp == now
    ensures r.Ok? && (meta.None? || meta.value.MetaNonDict?) ==>
              r.value.leadsCount == 0 && r.value.progress == 0 && r.value.successful == [] && r.value.failed == []
    ensures r.Ok? && job.Some? && job.value.excInfo.Some? && job.value.excInfo.value != "" ==> r.value.error == job.value.excInfo
  {
    match meta
    case Some(MetaNonDict(truthy, t)) =>
      if truthy then Err("'" + t + "' object has no attribute 'get'")
      else Ok(JobStatusData(jobId, 0, QueueStatus(job), 0, now, [], [], ExcInfo(job, None)))
    case Some(MetaDict(m)) =>
      Ok(JobStatusData(jobId, ValueOr(m.leadsCount, 0), QueueStatus(job), ValueOr(m.progress, 0), now,
                       ValueOr(m.successful, []), ValueOr(m.failed, []), ExcInfo(job, m.error)))
    case None => Ok(JobStatusData(jobId, 0, QueueStatus(job), 0, now, [], [], ExcInfo(job, None)))
  }

  function ExcInfo(job: Option<QueueJob>, metaError: Option<string>): Option<string>
  {
    if job.Some? && job.value.excInfo.Some? && job.value.excInfo.value != "" then job.value.excInfo else metaError
  }

  /** The collaborators of the status reader; `connectError` is what `get_redis_conn()` raised, if anything. */
  datatype StatusEnv = StatusEnv(
    connectError: Option<string>,
    site: string,
    now: string,
    fetch: string -> Option<QueueJob>,
    fetchFrom: (string, string) -> QueueRead,
    cache: string -> CacheRead,
    redis: string -> RedisRead,
    parse: MetaParser)

  /** `get_bulk_email_job_status`. */
  function JobStatusOf(jobId: Option<string>, env: StatusEnv): (r: StatusReply)
    ensures jobId.None? || jobId.value == "" <==> r == JobIdRequired
    ensures r.StatusFound? ==> r.data.jobId == jobId.value
    ensures jobId.Some? && jobId.value != "" && env.connectError.Some? ==>
      r == StatusFailed("Error checking job status: " + env.connectError.value, jobId.value, "unknown")
  {
    if jobId.None? || jobId.value == "" then JobIdRequired
    else if env.connectError.Some? then StatusFailed("Error checking job status: " + env.connectError.value, jobId.value, "unknown")
    else
      var id := jobId.value;
      var job := ResolveJob(id, env.site, env.fetch, env.fetchFrom);
      var meta := FindMeta(CandidateKeys(id, env.site), env.cache, env.redis, env.parse);
      match Merge(id, job, meta, env.now)
      case Ok(data) => StatusFound(data)
      case Err(e) => StatusFailed("Error checking job status: " + e, id, "unknown")
  }

  /**
   * A job the submission queued is reported with the counts and progress of
   * its cached record, provided the cache returns that record under the key
   * the submission wrote.
   */
  lemma QueuedJobReported(jobId: string, record: JobRecord, env: StatusEnv)
    requires jobId != "" && env.connectError.None?
    requires env.cache(JobKey(jobId)) == CacheDict(MetaOf(record))
    ensures JobStatusOf(Some(jobId), env).StatusFound?
    ensures var data := JobStatusOf(Some(jobId), env).data;
      data.leadsCount == record.leadsCount && data.progress == ValueOr(record.progress, 0)
      && data.successful == record.successful && data.failed == record.failed
  {
    var keys := CandidateKeys(jobId, env.site);
    assert FindMeta(keys, env.cache, env.redis, env.parse) == Some(MetaDict(MetaOf(record)));
  }
}
