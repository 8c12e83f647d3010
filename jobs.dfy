/**
 * The asynchronous job record as the submission endpoint creates it and the
 * worker updates it, and the stores both act on: the jobs collection, the
 * temporary-document bucket and the queue of worker tasks.
 */
module Jobs {
  import opened Wrappers
  import Classifier

  datatype JobStatus = Pending | Processing | Completed | Failed

  /** The status as it is stored and reported. */
  function StatusName(s: JobStatus): (r: string)
    ensures s == Pending <==> r == "pending"
    ensures s == Processing <==> r == "processing"
    ensures s == Completed <==> r == "completed"
    ensures s == Failed <==> r == "failed"
  {
    match s
    case Pending => "pending"
    case Processing => "processing"
    case Completed => "completed"
    case Failed => "failed"
  }

  datatype DocumentInfo = DocumentInfo(filename: string, sizeBytes: nat, mimeType: string, storageRef: string)

  datatype Progress = Progress(stage: string, percentComplete: nat)

  datatype JobError = JobError(errorCode: string, message: string)

  /** The `document` part of a stored result; `text_length` is the length of the unstripped extracted text. */
  datatype ResultDocument = ResultDocument(filename: string, sizeBytes: nat, mimeType: string, textLength: nat)

  /** A stored result; its `status` is always 'success'. */
  datatype JobResult = JobResult(document: ResultDocument, classification: Classifier.Classification, modelUsed: string)

  /**
   * A job document. Times are integer seconds; fields the writers add later are
   * None until written (`apiKeyHash` read with `.get`, so it may be absent too).
   */
  datatype Job = Job(
    jobId: string,
    status: JobStatus,
    createdAt: int,
    updatedAt: int,
    document: DocumentInfo,
    apiKeyHash: Option<string>,
    result: Option<JobResult>,
    ttlExpiresAt: int,
    progress: Option<Progress>,
    completedAt: Option<int>,
    failedAt: Option<int>,
    error: Option<JobError>,
    processingTimeMs: Option<nat>)

  /** The extra information of an error response. */
  datatype Details =
    | NoDetails
    | SizeDetails(limitBytes: nat, receivedBytes: nat)
    | FormatDetails(supportedFormats: seq<string>)
    | ErrorDetails(error: string)
    | JobDetails(jobId: string, note: string)

  /** An error response: its HTTP status, error code, message and details. */
  datatype ApiError = ApiError(httpStatus: nat, errorCode: string, message: string, details: Details)

  /** Where a blob lives: bucket name and object path. */
  type BlobKey = (string, string)

  /** Writing a key twice leaves the second value. */
  lemma OverwriteKey<K, V>(m: map<K, V>, k: K, a: V, b: V)
    ensures m[k := a][k := b] == m[k := b]
  {
  }

  class JobStore {
    /** The jobs collection, by job id. */
    var jobs: map<string, Job>
    /** The temporary documents. */
    var blobs: map<BlobKey, seq<bv8>>
    /** The job ids queued for the worker, oldest first. */
    var tasks: seq<string>

    constructor ()
      ensures jobs == map[] && blobs == map[] && tasks == []
    {
      jobs := map[];
      blobs := map[];
      tasks := [];
    }
  }
}
