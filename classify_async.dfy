/**
 * The asynchronous classification endpoints: admission of a 5 MB .. 50 MB
 * document, creation of its job (temporary blob, job document, worker task)
 * with a completion estimate, and the status projection returned to pollers.
 * The job id, the clock, the caller's key hash and the failures of the three
 * writes are parameters.
 */
module ClassifyAsync {
  import opened Wrappers
  import opened Text
  import Config
  import opened Jobs

  /** A document as the request carries it; its size is the length of its content. */
  datatype Upload = Upload(content: seq<bv8>, filename: string, mimeType: string)

  /** The outcome of the size and format checks, in the order they run. */
  datatype Admission = Admitted | TooSmall(received: nat) | TooLarge(received: nat) | UnsupportedFormat(mimeType: string)

  /** The guards of classify_async: too small first, then too large, then the MIME type. */
  function Admit(size: nat, mimeType: string): (a: Admission)
    ensures a == Admitted <==>
      Config.MaxSyncSizeBytes <= size <= Config.MaxAsyncSizeBytes && mimeType in Config.SupportedMimeTypes
    ensures size < Config.MaxSyncSizeBytes ==> a == TooSmall(size)
    ensures size > Config.MaxAsyncSizeBytes ==> a == TooLarge(size)
    ensures Config.MaxSyncSizeBytes <= size <= Config.MaxAsyncSizeBytes && mimeType !in Config.SupportedMimeTypes ==>
      a == UnsupportedFormat(mimeType)
  {
    if size < Config.MaxSyncSizeBytes then TooSmall(size)
    else if size > Config.MaxAsyncSizeBytes then TooLarge(size)
    else if mimeType !in Config.SupportedMimeTypes then UnsupportedFormat(mimeType)
    else Admitted
  }

  /** A size problem is reported even for an unsupported format: the size checks come first. */
  lemma SizeCheckedBeforeFormat(size: nat, mimeType: string)
    requires mimeType !in Config.SupportedMimeTypes
    requires size < Config.MaxSyncSizeBytes || size > Config.MaxAsyncSizeBytes
    ensures !Admit(size, mimeType).UnsupportedFormat?
  {
  }

  /** The error response of a refused admission. */
  function Refusal(a: Admission): (e: ApiError)
    requires a != Admitted
    ensures e.httpStatus == (if a.TooLarge? then 413 else 400)
    ensures a.UnsupportedFormat? ==>
      e.errorCode == "UNSUPPORTED_FORMAT" && e.details == FormatDetails(Config.SupportedMimeTypeOrder)
  {
    match a
    case TooSmall(n) =>
      ApiError(400, "DOCUMENT_TOO_SMALL", "Document is under 5MB. Use /classify endpoint for synchronous processing.",
               SizeDetails(Config.MaxSyncSizeBytes, n))
    case TooLarge(n) =>
      ApiError(413, "DOCUMENT_TOO_LARGE", "Document exceeds maximum size of 50MB", SizeDetails(Config.MaxAsyncSizeBytes, n))
    case UnsupportedFormat(m) =>
      ApiError(400, "UNSUPPORTED_FORMAT", "Unsupported file format: " + m, FormatDetails(Config.SupportedMimeTypeOrder))
  }

  /** The floor of five seconds per MiB of size, that is of 5 * size / 2^20, clamped to 10 .. 60. */
  function EstimatedSeconds(size: nat): (r: nat)
    ensures 10 <= r <= 60
    ensures 10 <= size * 5 / 1048576 <= 60 ==> r == size * 5 / 1048576
  {
    var raw := size * 5 / 1048576;
    if raw > 60 then 60 else if raw < 10 then 10 else raw
  }

  /** A larger document never gets a shorter estimate. */
  lemma EstimateMonotone(a: nat, b: nat)
    requires a <= b
    ensures EstimatedSeconds(a) <= EstimatedSeconds(b)
  {
    assert a * 5 <= b * 5;
    assert a * 5 / 1048576 <= b * 5 / 1048576;
  }

  /** Every admitted document is at least 5 MiB, so its estimate is at least 25 seconds; from 12 MiB on it is 60. */
  lemma AdmittedEstimate(size: nat, mimeType: string)
    requires Admit(size, mimeType) == Admitted
    ensures 25 <= EstimatedSeconds(size) <= 60
    ensures size >= 12 * 1048576 ==> EstimatedSeconds(size) == 60
  {
    EstimateMonotone(Config.MaxSyncSizeBytes, size);
    assert EstimatedSeconds(Config.MaxSyncSizeBytes) == 25;
    if size >= 12 * 1048576 {
      EstimateMonotone(12 * 1048576, size);
      assert EstimatedSeconds(12 * 1048576) == 60;
    }
  }

  /** The temporary bucket of a project. */
  function BucketName(projectId: string): string {
    projectId + "-ibrs-temp"
  }

  /** The object path of a job's document. */
  function BlobName(jobId: string, filename: string): string {
    "jobs/" + jobId + "/" + filename
  }

  /** The `gs://bucket/path` reference stored in the job. */
  function StorageRef(bucket: string, blobName: string): (r: string)
    ensures |r| == 6 + |bucket| + |blobName|
    ensures r[..5] == "gs://" && r[5..5 + |bucket|] == bucket && r[5 + |bucket|] == '/' && r[6 + |bucket|..] == blobName
  {
    "gs://" + bucket + "/" + blobName
  }

  /** The job document written on submission. */
  function NewJob(jobId: string, u: Upload, bucket: string, apiKeyHash: string, now: int): (j: Job)
    ensures j.jobId == jobId && j.status == Pending && j.createdAt == now && j.updatedAt == now
    ensures j.result.None? && j.ttlExpiresAt == now + Config.JobTtlHours * 3600
    ensures j.document == DocumentInfo(u.filename, |u.content|, u.mimeType, StorageRef(bucket, BlobName(jobId, u.filename)))
    ensures j.apiKeyHash == Some(apiKeyHash)
    ensures j.progress.None? && j.completedAt.None? && j.failedAt.None? && j.error.None? && j.processingTimeMs.None?
  {
    Job(jobId, Pending, now, now,
        DocumentInfo(u.filename, |u.content|, u.mimeType, StorageRef(bucket, BlobName(jobId, u.filename))),
        Some(apiKeyHash), None, now + Config.JobTtlHours * 3600, None, None, None, None, None)
  }

  datatype SubmitResponse =
    | Accepted(jobId: string, statusUrl: string, estimatedCompletionSeconds: nat, createdAt: int)
    | SubmitRefused(error: ApiError)

  /** The HTTP status of a submission response. */
  function SubmitStatus(r: SubmitResponse): nat {
    if r.Accepted? then 202 else r.error.httpStatus
  }

  /** What a failing step raised, with its str(): a ValueError, or an exception of any other class. */
  datatype Raised = ValueError(message: string) | OtherError(message: string)

  /** The two handlers of classify_async, chosen by the class of what was raised, wherever it was raised. */
  function Caught(e: Raised): (err: ApiError)
    ensures err.httpStatus == 400 <==> e.ValueError?
    ensures err.httpStatus == 500 <==> e.OtherError?
    ensures e.ValueError? ==> err.errorCode == "INVALID_REQUEST" && err.message == e.message && err.details == NoDetails
    ensures e.OtherError? ==>
      err.errorCode == "JOB_CREATION_FAILED" && err.message == "Failed to create classification job"
      && err.details == ErrorDetails(e.message)
  {
    match e
    case ValueError(m) => ApiError(400, "INVALID_REQUEST", m, NoDetails)
    case OtherError(m) => ApiError(500, "JOB_CREATION_FAILED", "Failed to create classification job", ErrorDetails(m))
  }

  /**
   * classify_async. `request` is the decoded document or what decoding it raised (a ValueError for
   * the checks of the request's shape, another class for a body the JSON parser rejects);
   * `uploadError`, `setError` and `taskError` say what, if anything, the blob upload, the job write
   * and the worker-task creation raise. Writes done before a failure stay done.
   */
  method Submit(store: JobStore, request: Result<Upload, Raised>, jobId: string, projectId: string,
                apiKeyHash: string, now: int,
                uploadError: Option<Raised>, setError: Option<Raised>, taskError: Option<Raised>)
    returns (r: SubmitResponse)
    modifies store
    ensures request.Failure? ==>
      r == SubmitRefused(Caught(request.error))
      && store.jobs == old(store.jobs) && store.blobs == old(store.blobs) && store.tasks == old(store.tasks)
    ensures request.Success? && Admit(|request.value.content|, request.value.mimeType) != Admitted ==>
      r == SubmitRefused(Refusal(Admit(|request.value.content|, request.value.mimeType)))
      && store.jobs == old(store.jobs) && store.blobs == old(store.blobs) && store.tasks == old(store.tasks)
    ensures request.Success? && Admit(|request.value.content|, request.value.mimeType) == Admitted ==>
      var u := request.value;
      var key := (BucketName(projectId), BlobName(jobId, u.filename));
      var job := NewJob(jobId, u, BucketName(projectId), apiKeyHash, now);
      (uploadError.Some? ==>
         r == SubmitRefused(Caught(uploadError.value))
         && store.jobs == old(store.jobs) && store.blobs == old(store.blobs) && store.tasks == old(store.tasks))
      && (uploadError.None? ==> store.blobs == old(store.blobs)[key := u.content])
      && (uploadError.None? && setError.Some? ==>
            r == SubmitRefused(Caught(setError.value)) && store.jobs == old(store.jobs) && store.tasks == old(store.tasks))
      && (uploadError.None? && setError.None? ==> store.jobs == old(store.jobs)[jobId := job])
      && (uploadError.None? && setError.None? && taskError.Some? ==>
            r == SubmitRefused(Caught(taskError.value)) && store.tasks == old(store.tasks))
      && (uploadError.None? && setError.None? && taskError.None? ==>
            store.tasks == old(store.tasks) + [jobId]
            && r == Accepted(jobId, "/classify/status/" + jobId, EstimatedSeconds(|u.content|), now))
  {
    if request.Failure? {
      return SubmitRefused(Caught(request.error));
    }
    var u := request.value;
    var size := |u.content|;
    var admission := Admit(size, u.mimeType);
    if admission != Admitted {
      return SubmitRefused(Refusal(admission));
    }
    var bucket := BucketName(projectId);
    var blobName := BlobName(jobId, u.filename);
    if uploadError.Some? {
      return SubmitRefused(Caught(uploadError.value));
    }
    store.blobs := store.blobs[(bucket, blobName) := u.content];
    var job := NewJob(jobId, u, bucket, apiKeyHash, now);
    if setError.Some? {
      return SubmitRefused(Caught(setError.value));
    }
    store.jobs := store.jobs[jobId := job];
    if taskError.Some? {
      return SubmitRefused(Caught(taskError.value));
    }
    store.tasks := store.tasks + [jobId];
    return Accepted(jobId, "/classify/status/" + jobId, EstimatedSeconds(size), now);
  }

  // ---------------------------------------------------------------------------
  // The status endpoint.

  /**
   * The body of a successful status response. The four base keys are always there; an
   * optional field is Some exactly when its key is in the response. A `progress`, `result`
   * or `error` key whose stored value is absent carries the inner None (`{}` or null).
   */
  datatype StatusView = StatusView(
    jobId: string, status: JobStatus, createdAt: int, updatedAt: int,
    message: Option<string>,
    progress: Option<Option<Progress>>,
    completedAt: Option<int>,
    result: Option<Option<JobResult>>,
    processingTimeMs: Option<nat>,
    failedAt: Option<int>,
    error: Option<Option<JobError>>)

  /** The keys present in a response. */
  function Keys(v: StatusView): set<string> {
    {"job_id", "status", "created_at", "updated_at"}
    + (if v.message.Some? then {"message"} else {})
    + (if v.progress.Some? then {"progress"} else {})
    + (if v.completedAt.Some? then {"completed_at"} else {})
    + (if v.result.Some? then {"result"} else {})
    + (if v.processingTimeMs.Some? then {"processing_time_ms"} else {})
    + (if v.failedAt.Some? then {"failed_at"} else {})
    + (if v.error.Some? then {"error"} else {})
  }

  /** The keys each status adds to the base four. */
  function StatusKeys(j: Job): set<string> {
    match j.status
    case Pending => {"message"}
    case Processing => {"progress"}
    case Completed => {"completed_at", "result"} + (if j.processingTimeMs.Some? then {"processing_time_ms"} else {})
    case Failed => {"failed_at", "error"}
  }

  datatype StatusOutcome = StatusOk(view: StatusView) | StatusRefused(error: ApiError)

  const PendingMessage: string := "Job is queued for processing"

  function JobNotFound(jobId: string): ApiError {
    ApiError(404, "JOB_NOT_FOUND", "Job not found or has expired",
             JobDetails(jobId, "Jobs expire " + NatToString(Config.JobTtlHours) + " hours after creation"))
  }

  const Unauthorized: ApiError := ApiError(403, "UNAUTHORIZED", "This job belongs to a different API key", NoDetails)

  /**
   * Formatting a completion or failure time that was never written calls `strftime` on None,
   * which raises AttributeError; the handler answers 500 with that exception's text as details.
   */
  const StatusInternalError: ApiError :=
    ApiError(500, "INTERNAL_ERROR", "Failed to retrieve job status",
             ErrorDetails("'NoneType' object has no attribute 'strftime'"))

  /**
   * classify_status for a caller whose key hashes to `requestHash`. The job's TTL is not
   * consulted: an expired job that is still stored is reported like any other.
   */
  method ClassifyStatus(store: JobStore, jobId: string, requestHash: string) returns (r: StatusOutcome)
    ensures jobId !in store.jobs ==> r == StatusRefused(JobNotFound(jobId))
    ensures jobId in store.jobs && store.jobs[jobId].apiKeyHash != Some(requestHash) ==> r == StatusRefused(Unauthorized)
    ensures jobId in store.jobs && store.jobs[jobId].apiKeyHash == Some(requestHash) ==>
      var j := store.jobs[jobId];
      if (j.status == Completed && j.completedAt.None?) || (j.status == Failed && j.failedAt.None?) then
        r == StatusRefused(StatusInternalError)
      else
        r.StatusOk?
        && Keys(r.view) == {"job_id", "status", "created_at", "updated_at"} + StatusKeys(j)
        && r.view.jobId == jobId && r.view.status == j.status
        && r.view.createdAt == j.createdAt && r.view.updatedAt == j.updatedAt
        && (j.status == Pending ==> r.view.message == Some(PendingMessage))
        && (j.status == Processing ==> r.view.progress == Some(j.progress))
        && (j.status == Completed ==>
              r.view.completedAt == j.completedAt && r.view.result == Some(j.result)
              && r.view.processingTimeMs == j.processingTimeMs)
        && (j.status == Failed ==> r.view.failedAt == j.failedAt && r.view.error == Some(j.error))
  {
    if jobId !in store.jobs {
      return StatusRefused(JobNotFound(jobId));
    }
    var j := store.jobs[jobId];
    if Some(requestHash) != j.apiKeyHash {
      return StatusRefused(Unauthorized);
    }
    var v := StatusView(jobId, j.status, j.createdAt, j.updatedAt, None, None, None, None, None, None, None);
    match j.status {
      case Pending =>
        v := v.(message := Some(PendingMessage));
      case Processing =>
        v := v.(progress := Some(j.progress));
      case Completed =>
        if j.completedAt.None? {
          return StatusRefused(StatusInternalError);
        }
        v := v.(completedAt := j.completedAt, result := Some(j.result));
        if j.processingTimeMs.Some? {
          v := v.(processingTimeMs := j.processingTimeMs);
        }
      case Failed =>
        if j.failedAt.None? {
          return StatusRefused(StatusInternalError);
        }
        v := v.(failedAt := j.failedAt, error := Some(j.error));
    }
    return StatusOk(v);
  }
}
