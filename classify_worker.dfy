/**
 * The asynchronous worker: for one queued job it marks the job processing,
 * downloads the document named by its storage reference, extracts and checks
 * the text, classifies it, and records either the result or the failure, with
 * a progress stage at each step. The extractors, the tag-cache load, the model
 * calls, the clock and the blob deletion's success are parameters.
 */
module ClassifyWorker {
  import opened Wrappers
  import opened Text
  import Config
  import opened Tags
  import Classifier
  import DocumentParser
  import opened Jobs
  import ClassifyAsync

  /** The bucket is the third '/'-separated part of the reference and the object path every part
      after it, joined again by '/'; None when the reference has fewer than three parts. */
  function ParseStorageRef(ref: string): Option<BlobKey> {
    var parts := Split(ref, '/');
    if |parts| < 3 then None else Some((parts[2], Join(parts[3..], '/')))
  }

  /** Parsing a reference built from a '/'-free bucket and any object path gives back both. */
  lemma StorageRefRoundTrip(bucket: string, blobName: string)
    requires '/' !in bucket
    ensures ParseStorageRef(ClassifyAsync.StorageRef(bucket, blobName)) == Some((bucket, blobName))
  {
    var tail := bucket + ['/'] + blobName;
    assert ClassifyAsync.StorageRef(bucket, blobName) == "gs:" + ['/'] + ("" + ['/'] + tail);
    SplitAfterHead("gs:", "" + ['/'] + tail, '/');
    SplitAfterHead("", tail, '/');
    SplitAfterHead(bucket, blobName, '/');
    var parts := Split(ClassifyAsync.StorageRef(bucket, blobName), '/');
    assert parts == ["gs:"] + ([""] + ([bucket] + Split(blobName, '/')));
    assert parts[2] == bucket && parts[3..] == Split(blobName, '/');
    JoinSplit(blobName, '/');
  }

  /** The worker finds a submitted job's document exactly where submission uploaded it. */
  lemma SubmittedBlobLocated(jobId: string, u: ClassifyAsync.Upload, projectId: string, apiKeyHash: string, now: int)
    requires '/' !in projectId
    ensures var j := ClassifyAsync.NewJob(jobId, u, ClassifyAsync.BucketName(projectId), apiKeyHash, now);
      ParseStorageRef(j.document.storageRef)
        == Some((ClassifyAsync.BucketName(projectId), ClassifyAsync.BlobName(jobId, u.filename)))
  {
    assert forall i :: 0 <= i < |"-ibrs-temp"| ==> "-ibrs-temp"[i] != '/';
    assert '/' !in ClassifyAsync.BucketName(projectId);
    StorageRefRoundTrip(ClassifyAsync.BucketName(projectId), ClassifyAsync.BlobName(jobId, u.filename));
  }

  // ---------------------------------------------------------------------------
  // The writes to the job document.

  /** The first write: processing, at the downloading stage, whatever the stored status was. */
  function StartProcessing(j: Job, now: int): (r: Job)
    ensures r.status == Processing && r.updatedAt == now && r.progress == Some(Progress("downloading", 10))
  {
    j.(status := Processing, updatedAt := now, progress := Some(Progress("downloading", 10)))
  }

  /** A progress write: a new stage, nothing else but the update time. */
  function Advance(j: Job, now: int, stage: string, percent: nat): (r: Job)
    ensures r.progress == Some(Progress(stage, percent)) && r.updatedAt == now
  {
    j.(updatedAt := now, progress := Some(Progress(stage, percent)))
  }

  /** _fail_job: failed, with the failure time and the error; progress stays at the stage reached. */
  function FailJob(j: Job, now: int, errorCode: string, message: string): (r: Job)
    ensures r.status == Failed && r.failedAt == Some(now) && r.updatedAt == now
    ensures r.error == Some(JobError(errorCode, message)) && r.progress == j.progress
  {
    j.(status := Failed, failedAt := Some(now), updatedAt := now, error := Some(JobError(errorCode, message)))
  }

  /** The completion write. */
  function CompleteJob(j: Job, now: int, result: JobResult, processingTimeMs: nat): (r: Job)
    ensures r.status == Completed && r.completedAt == Some(now) && r.updatedAt == now
    ensures r.result == Some(result) && r.processingTimeMs == Some(processingTimeMs) && r.progress == j.progress
  {
    j.(status := Completed, completedAt := Some(now), updatedAt := now, result := Some(result),
       processingTimeMs := Some(processingTimeMs))
  }

  const FailureCodes: set<string> :=
    {"EXTRACTION_NO_TEXT", "EXTRACTION_FAILED", "TAG_CACHE_LOAD_FAILED", "VALIDATION_FAILED", "CLASSIFICATION_FAILED"}

  /** One write after another: a write that keeps the job processing raises the percentage, any other keeps it. */
  predicate StepOrdered(a: Job, b: Job) {
    a.progress.Some? && b.progress.Some?
    && if b.status == Processing then a.progress.value.percentComplete < b.progress.value.percentComplete
       else b.progress == a.progress
  }

  /** A sequence of writes in which only the last may leave the processing state. */
  predicate Orderly(w: seq<Job>) {
    (forall i :: 0 < i < |w| ==> StepOrdered(w[i - 1], w[i]))
    && (forall i :: 0 <= i < |w| - 1 ==> w[i].status == Processing)
    && (forall i :: 0 <= i < |w| ==> w[i].progress.Some?)
  }

  lemma OrderlySnoc(w: seq<Job>, b: Job)
    requires Orderly(w) && |w| >= 1 && w[|w| - 1].status == Processing && StepOrdered(w[|w| - 1], b)
    ensures Orderly(w + [b])
  {
    var v := w + [b];
    forall i | 0 < i < |v| ensures StepOrdered(v[i - 1], v[i]) {
      if i < |w| {
        assert v[i - 1] == w[i - 1] && v[i] == w[i];
      }
    }
  }

  /** Along orderly writes the percentage never falls, and it rises strictly up to every processing write. */
  lemma {:induction false} OrderlyProgress(w: seq<Job>, i: nat, j: nat)
    requires Orderly(w) && i < j < |w|
    ensures w[i].progress.value.percentComplete <= w[j].progress.value.percentComplete
    ensures w[j].status == Processing ==> w[i].progress.value.percentComplete < w[j].progress.value.percentComplete
    decreases j - i
  {
    assert StepOrdered(w[j - 1], w[j]);
    if i < j - 1 {
      OrderlyProgress(w, i, j - 1);
    }
  }

  // ---------------------------------------------------------------------------
  // The worker.

  datatype WorkerResponse =
    | MissingJobId
    | JobNotFound
    | WorkerFailed(error: string)
    | WorkerRulesFailed(errors: seq<string>)
    | WorkerCompleted(jobId: string, processingTimeMs: nat)
    /** An exception outside the handled steps (a failed download, an unparsable storage reference). */
    | WorkerCrashed

  function WorkerHttpStatus(r: WorkerResponse): nat {
    match r
    case MissingJobId => 400
    case JobNotFound => 404
    case WorkerCrashed => 500
    case _ => 200
  }

  /** A failing step: its write ends the sequence and decides the response. */
  function Fail(done: seq<Job>, j: Job, now: int, errorCode: string, message: string, r: WorkerResponse)
    : (WorkerResponse, seq<Job>)
  {
    (r, done + [FailJob(j, now, errorCode, message)])
  }

  /** What the worker answers and writes, step by step, for the job stored under `id`. */
  function Run(id: string, job: Job, now: int, elapsedMs: nat, blobs: map<BlobKey, seq<bv8>>,
               extract: seq<bv8> -> string -> Result<string, string>, loadCache: Result<TagCache, string>,
               model: nat -> Classifier.Attempt, parseJson: string -> Result<Classifier.Json, string>,
               parseFloat: string -> Option<real>): (r: (WorkerResponse, seq<Job>))
    requires loadCache.Success? ==> loadCache.value.Valid()
    ensures r.1 != []
  {
    var j1 := StartProcessing(job, now);
    var loc := ParseStorageRef(job.document.storageRef);
    if loc.None? || loc.value !in blobs then (WorkerCrashed, [j1])
    else
      Extraction(id, [j1], j1, now, elapsedMs, extract(blobs[loc.value]), loadCache, model, parseJson, parseFloat)
  }

  /** From the download on, after `done` has been written and `j1` is the stored job: extraction, then the text check. */
  function Extraction(id: string, done: seq<Job>, j1: Job, now: int, elapsedMs: nat,
                      extractors: string -> Result<string, string>,
                      loadCache: Result<TagCache, string>, model: nat -> Classifier.Attempt,
                      parseJson: string -> Result<Classifier.Json, string>, parseFloat: string -> Option<real>)
    : (r: (WorkerResponse, seq<Job>))
    requires loadCache.Success? ==> loadCache.value.Valid()
    ensures |r.1| > |done|
  {
    var j2 := Advance(j1, now, "text_extraction", 30);
    var text := DocumentParser.ExtractText(j1.document.mimeType, extractors);
    if text.Failure? then Fail(done + [j2], j2, now, "EXTRACTION_FAILED", text.error, WorkerFailed(text.error))
    else TextCheck(id, done + [j2], j2, now, elapsedMs, text.value, loadCache, model, parseJson, parseFloat)
  }

  /** The sufficiency check of the extracted text, then classification. */
  function TextCheck(id: string, done: seq<Job>, j2: Job, now: int, elapsedMs: nat, text: string,
                     loadCache: Result<TagCache, string>, model: nat -> Classifier.Attempt,
                     parseJson: string -> Result<Classifier.Json, string>, parseFloat: string -> Option<real>)
    : (r: (WorkerResponse, seq<Job>))
    requires loadCache.Success? ==> loadCache.value.Valid()
    ensures |r.1| > |done|
  {
    var check := DocumentParser.ValidateExtractedText(Some(text));
    if !check.0 then Fail(done, j2, now, "EXTRACTION_NO_TEXT", check.1.value, WorkerFailed(check.1.value))
    else Classification(id, done, j2, now, elapsedMs, |text|, loadCache, model, parseJson, parseFloat)
  }

  /** From the classification stage on, after `done` has been written and `j2` is the stored job. */
  function Classification(id: string, done: seq<Job>, j2: Job, now: int, elapsedMs: nat, textLength: nat,
                          loadCache: Result<TagCache, string>, model: nat -> Classifier.Attempt,
                          parseJson: string -> Result<Classifier.Json, string>, parseFloat: string -> Option<real>)
    : (r: (WorkerResponse, seq<Job>))
    requires loadCache.Success? ==> loadCache.value.Valid()
    ensures |r.1| > |done|
  {
    var j3 := Advance(j2, now, "classification", 50);
    if loadCache.Failure? then
      Fail(done + [j3], j3, now, "TAG_CACHE_LOAD_FAILED", loadCache.error, WorkerFailed(loadCache.error))
    else
      var c := Classifier.Retry(0, Config.ClassificationMaxRetries, None,
                                Classifier.Attempts(model, loadCache.value, parseJson, parseFloat)).0;
      if c.Failure? then Fail(done + [j3], j3, now, "CLASSIFICATION_FAILED", c.error, WorkerFailed(c.error))
      else Completion(id, done + [j3], j3, now, elapsedMs, textLength, c.value)
  }

  /** The rule check and, when it passes, the completion writes. */
  function Completion(id: string, done: seq<Job>, j3: Job, now: int, elapsedMs: nat, textLength: nat,
                      c: Classifier.Classification): (r: (WorkerResponse, seq<Job>))
    ensures |r.1| > |done|
  {
    var rules := Classifier.ValidateRules(c);
    if !rules.0 then
      Fail(done, j3, now, "VALIDATION_FAILED", JoinWith(rules.1, ", "), WorkerRulesFailed(rules.1))
    else
      var j4 := Advance(j3, now, "completed", 100);
      var doc := j3.document;
      var result := JobResult(ResultDocument(doc.filename, doc.sizeBytes, doc.mimeType, textLength),
                              c, Config.DefaultModelName);
      (WorkerCompleted(id, elapsedMs), done + [j4, CompleteJob(j4, now, result, elapsedMs)])
  }

  /**
   * classify_worker for a request whose decoded body carries `jobId` (None when it has none).
   * A body that cannot be decoded as JSON reaches the outer handler and gets 500, so it is
   * not a `jobId` of None; that case is not modelled here.
   * `extract(content)` is the extractor for each format on the downloaded bytes, `loadCache`
   * what loading the tag cache yields, `model` the model's answer to each attempt, `elapsedMs`
   * the processing time and `deleteOk` whether deleting the temporary blob succeeds; every
   * write happens at `now`. `writes` lists the successive versions of the job written, the
   * last of which is what stays stored.
   */
  method Work(store: JobStore, jobId: Option<string>, now: int, elapsedMs: nat,
              extract: seq<bv8> -> string -> Result<string, string>,
              loadCache: Result<TagCache, string>,
              model: nat -> Classifier.Attempt, parseJson: string -> Result<Classifier.Json, string>,
              parseFloat: string -> Option<real>, deleteOk: bool)
    returns (r: WorkerResponse, writes: seq<Job>)
    requires loadCache.Success? ==> loadCache.value.Valid()
    modifies store`jobs, store`blobs
    ensures store.tasks == old(store.tasks)
    ensures (jobId.None? || jobId.value !in old(store.jobs)) ==>
      r == (if jobId.None? then MissingJobId else JobNotFound)
      && writes == [] && store.jobs == old(store.jobs) && store.blobs == old(store.blobs)
    ensures jobId.Some? && jobId.value in old(store.jobs) ==>
      var job := old(store.jobs)[jobId.value];
      (r, writes) == Run(jobId.value, job, now, elapsedMs, old(store.blobs), extract, loadCache, model, parseJson, parseFloat)
      && store.jobs == old(store.jobs)[jobId.value := writes[|writes| - 1]]
      && (if r.WorkerCompleted? && deleteOk
          then store.blobs == old(store.blobs) - {ParseStorageRef(job.document.storageRef).value}
          else store.blobs == old(store.blobs))
  {
    writes := [];
    if jobId.None? {
      return MissingJobId, writes;
    }
    var id := jobId.value;
    if id !in store.jobs {
      return JobNotFound, writes;
    }
    r, writes := Handle(store, id, now, elapsedMs, extract, loadCache, model, parseJson, parseFloat, deleteOk);
  }

  /** The worker for a job that exists: the processing steps, then the deletion of the temporary blob. */
  method Handle(store: JobStore, id: string, now: int, elapsedMs: nat,
                extract: seq<bv8> -> string -> Result<string, string>,
                loadCache: Result<TagCache, string>,
                model: nat -> Classifier.Attempt, parseJson: string -> Result<Classifier.Json, string>,
                parseFloat: string -> Option<real>, deleteOk: bool)
    returns (r: WorkerResponse, writes: seq<Job>)
    requires id in store.jobs
    requires loadCache.Success? ==> loadCache.value.Valid()
    modifies store`jobs, store`blobs
    ensures var job := old(store.jobs)[id];
      (r, writes) == Run(id, job, now, elapsedMs, old(store.blobs), extract, loadCache, model, parseJson, parseFloat)
      && store.jobs == old(store.jobs)[id := writes[|writes| - 1]]
      && (if r.WorkerCompleted? && deleteOk
          then store.blobs == old(store.blobs) - {ParseStorageRef(job.document.storageRef).value}
          else store.blobs == old(store.blobs))
  {
    ghost var spec := Run(id, store.jobs[id], now, elapsedMs, store.blobs, extract, loadCache, model, parseJson, parseFloat);
    var loc := ParseStorageRef(store.jobs[id].document.storageRef);
    r, writes := Process(store, id, now, elapsedMs, extract, loadCache, model, parseJson, parseFloat);
    if r.WorkerCompleted? && deleteOk {
      store.blobs := store.blobs - {loc.value};
    }
  }

  /** The worker once the job stored under `id` has been read: processing, download and the stages. */
  method Process(store: JobStore, id: string, now: int, elapsedMs: nat,
                 extract: seq<bv8> -> string -> Result<string, string>,
                 loadCache: Result<TagCache, string>,
                 model: nat -> Classifier.Attempt, parseJson: string -> Result<Classifier.Json, string>,
                 parseFloat: string -> Option<real>)
    returns (r: WorkerResponse, writes: seq<Job>)
    requires id in store.jobs
    requires loadCache.Success? ==> loadCache.value.Valid()
    modifies store`jobs
    ensures (r, writes) == Run(id, old(store.jobs)[id], now, elapsedMs, old(store.blobs),
                               extract, loadCache, model, parseJson, parseFloat)
    ensures r.WorkerCompleted? ==> ParseStorageRef(old(store.jobs)[id].document.storageRef).Some?
    ensures store.jobs == old(store.jobs)[id := writes[|writes| - 1]]
  {
    ghost var spec := Run(id, store.jobs[id], now, elapsedMs, store.blobs, extract, loadCache, model, parseJson, parseFloat);
    ghost var base := store.jobs;
    var job := StartProcessing(store.jobs[id], now);
    store.jobs := store.jobs[id := job];
    writes := [job];
    var loc := ParseStorageRef(job.document.storageRef);
    if loc.None? || loc.value !in store.blobs {
      return WorkerCrashed, writes;
    }
    r, writes := ExtractStage(store, id, writes, job, now, elapsedMs, extract(store.blobs[loc.value]),
                              loadCache, model, parseJson, parseFloat);
    OverwriteKey(base, id, job, writes[|writes| - 1]);
  }

  /** The extraction steps of the worker, once `done` has been written and `j1` is stored under `id`. */
  method ExtractStage(store: JobStore, id: string, done: seq<Job>, j1: Job, now: int, elapsedMs: nat,
                      extractors: string -> Result<string, string>, loadCache: Result<TagCache, string>,
                      model: nat -> Classifier.Attempt, parseJson: string -> Result<Classifier.Json, string>,
                      parseFloat: string -> Option<real>)
    returns (r: WorkerResponse, writes: seq<Job>)
    requires loadCache.Success? ==> loadCache.value.Valid()
    modifies store`jobs
    ensures (r, writes) == Extraction(id, done, j1, now, elapsedMs, extractors, loadCache, model, parseJson, parseFloat)
    ensures store.jobs == old(store.jobs)[id := writes[|writes| - 1]]
  {
    ghost var spec := Extraction(id, done, j1, now, elapsedMs, extractors, loadCache, model, parseJson, parseFloat);
    ghost var base := store.jobs;
    var job := Advance(j1, now, "text_extraction", 30);
    store.jobs := store.jobs[id := job];
    writes := done + [job];
    var text := DocumentParser.ExtractText(j1.document.mimeType, extractors);
    if text.Failure? {
      OverwriteKey(base, id, job, FailJob(job, now, "EXTRACTION_FAILED", text.error));
      job := FailJob(job, now, "EXTRACTION_FAILED", text.error);
      store.jobs := store.jobs[id := job];
      writes := writes + [job];
      return WorkerFailed(text.error), writes;
    }
    r, writes := CheckStage(store, id, writes, job, now, elapsedMs, text.value, loadCache, model, parseJson, parseFloat);
    OverwriteKey(base, id, job, writes[|writes| - 1]);
  }

  /** The text check of the worker, once `done` has been written and `j2` is stored under `id`. */
  method CheckStage(store: JobStore, id: string, done: seq<Job>, j2: Job, now: int, elapsedMs: nat, text: string,
                    loadCache: Result<TagCache, string>, model: nat -> Classifier.Attempt,
                    parseJson: string -> Result<Classifier.Json, string>, parseFloat: string -> Option<real>)
    returns (r: WorkerResponse, writes: seq<Job>)
    requires loadCache.Success? ==> loadCache.value.Valid()
    modifies store`jobs
    ensures (r, writes) == TextCheck(id, done, j2, now, elapsedMs, text, loadCache, model, parseJson, parseFloat)
    ensures store.jobs == old(store.jobs)[id := writes[|writes| - 1]]
  {
    ghost var spec := TextCheck(id, done, j2, now, elapsedMs, text, loadCache, model, parseJson, parseFloat);
    var check := DocumentParser.ValidateExtractedText(Some(text));
    if !check.0 {
      var failed := FailJob(j2, now, "EXTRACTION_NO_TEXT", check.1.value);
      store.jobs := store.jobs[id := failed];
      return WorkerFailed(check.1.value), done + [failed];
    }
    r, writes := ClassifyStage(store, id, done, j2, now, elapsedMs, |text|, loadCache, model, parseJson, parseFloat);
  }

  /** The classification steps of the worker, once `done` has been written and `j2` is stored under `id`. */
  method ClassifyStage(store: JobStore, id: string, done: seq<Job>, j2: Job, now: int, elapsedMs: nat, textLength: nat,
                       loadCache: Result<TagCache, string>, model: nat -> Classifier.Attempt,
                       parseJson: string -> Result<Classifier.Json, string>, parseFloat: string -> Option<real>)
    returns (r: WorkerResponse, writes: seq<Job>)
    requires loadCache.Success? ==> loadCache.value.Valid()
    modifies store`jobs
    ensures (r, writes) == Classification(id, done, j2, now, elapsedMs, textLength, loadCache, model, parseJson, parseFloat)
    ensures store.jobs == old(store.jobs)[id := writes[|writes| - 1]]
  {
    ghost var spec := Classification(id, done, j2, now, elapsedMs, textLength, loadCache, model, parseJson, parseFloat);
    ghost var base := store.jobs;
    var job := Advance(j2, now, "classification", 50);
    store.jobs := store.jobs[id := job];
    writes := done + [job];
    if loadCache.Failure? {
      OverwriteKey(base, id, job, FailJob(job, now, "TAG_CACHE_LOAD_FAILED", loadCache.error));
      job := FailJob(job, now, "TAG_CACHE_LOAD_FAILED", loadCache.error);
      store.jobs := store.jobs[id := job];
      writes := writes + [job];
      return WorkerFailed(loadCache.error), writes;
    }
    var classification, _ := Classifier.ClassifyDocument(loadCache.value, Config.ClassificationMaxRetries,
                                                         model, parseJson, parseFloat);
    if classification.Failure? {
      OverwriteKey(base, id, job, FailJob(job, now, "CLASSIFICATION_FAILED", classification.error));
      job := FailJob(job, now, "CLASSIFICATION_FAILED", classification.error);
      store.jobs := store.jobs[id := job];
      writes := writes + [job];
      return WorkerFailed(classification.error), writes;
    }
    r, writes := CompleteStage(store, id, writes, job, now, elapsedMs, textLength, classification.value);
    OverwriteKey(base, id, job, writes[|writes| - 1]);
  }

  /** The rule check and the completion writes, once `done` has been written and `j3` is stored under `id`. */
  method CompleteStage(store: JobStore, id: string, done: seq<Job>, j3: Job, now: int, elapsedMs: nat, textLength: nat,
                       c: Classifier.Classification)
    returns (r: WorkerResponse, writes: seq<Job>)
    modifies store`jobs
    ensures (r, writes) == Completion(id, done, j3, now, elapsedMs, textLength, c)
    ensures store.jobs == old(store.jobs)[id := writes[|writes| - 1]]
  {
    ghost var spec := Completion(id, done, j3, now, elapsedMs, textLength, c);
    var rules := Classifier.ValidateRules(c);
    if !rules.0 {
      var failed := FailJob(j3, now, "VALIDATION_FAILED", JoinWith(rules.1, ", "));
      store.jobs := store.jobs[id := failed];
      return WorkerRulesFailed(rules.1), done + [failed];
    }
    ghost var base := store.jobs;
    var job := Advance(j3, now, "completed", 100);
    store.jobs := store.jobs[id := job];
    writes := done + [job];
    var doc := j3.document;
    var result := JobResult(ResultDocument(doc.filename, doc.sizeBytes, doc.mimeType, textLength),
                            c, Config.DefaultModelName);
    OverwriteKey(base, id, job, CompleteJob(job, now, result, elapsedMs));
    job := CompleteJob(job, now, result, elapsedMs);
    store.jobs := store.jobs[id := job];
    writes := writes + [job];
    assert writes == done + [Advance(j3, now, "completed", 100), job];
    return WorkerCompleted(id, elapsedMs), writes;
  }

  // ---------------------------------------------------------------------------
  // What the worker guarantees.

  /** The fields no worker write touches. */
  predicate SameRecord(a: Job, b: Job) {
    a.jobId == b.jobId && a.createdAt == b.createdAt && a.document == b.document
    && a.apiKeyHash == b.apiKeyHash && a.ttlExpiresAt == b.ttlExpiresAt
  }

  /** The response agrees with the status the job is left in (500 only while it is still processing),
      and a failure carries one of the five codes. */
  predicate Settled(resp: WorkerResponse, last: Job) {
    (resp.WorkerCompleted? <==> last.status == Completed)
    && (resp.WorkerFailed? || resp.WorkerRulesFailed? <==> last.status == Failed)
    && (resp.WorkerCrashed? <==> last.status == Processing)
    && (last.status == Failed ==> last.error.Some? && last.error.value.errorCode in FailureCodes)
    && (last.status == Completed ==> last.result.Some? && last.progress == Some(Progress("completed", 100)))
    && WorkerHttpStatus(resp) == (if last.status == Processing then 500 else 200)
  }

  /** What a stage starting after `done`, with `j` stored, answers and writes: `done` is kept, the
      writes stay orderly, `j`'s record fields are kept and the response matches the final status. */
  predicate GoodTail(done: seq<Job>, j: Job, r: (WorkerResponse, seq<Job>)) {
    |r.1| > |done| && r.1[..|done|] == done && Orderly(r.1)
    && (forall i :: |done| <= i < |r.1| ==> SameRecord(j, r.1[i]))
    && Settled(r.0, r.1[|r.1| - 1])
  }

  /** A stage that starts where `done` ends, with the job in processing at a lower percentage. */
  predicate ReadyFor(done: seq<Job>, j: Job, percent: nat) {
    Orderly(done) && done != [] && done[|done| - 1] == j && j.status == Processing
    && j.progress.Some? && j.progress.value.percentComplete < percent
  }

  /** A tail after one more write is a tail after the writes before it. */
  lemma GoodTailShorter(done: seq<Job>, k: Job, j: Job, r: (WorkerResponse, seq<Job>))
    requires GoodTail(done + [k], k, r) && SameRecord(j, k)
    ensures GoodTail(done, j, r)
  {
    assert r.1[..|done|] == r.1[..|done| + 1][..|done|];
    assert (done + [k])[..|done|] == done;
    assert r.1[|done|] == (done + [k])[|done|] == k;
  }

  /** A failing step leaves a good tail. */
  lemma FailTail(done: seq<Job>, j: Job, now: int, code: string, message: string, resp: WorkerResponse)
    requires ReadyFor(done, j, 101) && code in FailureCodes && (resp.WorkerFailed? || resp.WorkerRulesFailed?)
    ensures GoodTail(done, j, Fail(done, j, now, code, message, resp))
  {
    OrderlySnoc(done, FailJob(j, now, code, message));
    assert (done + [FailJob(j, now, code, message)])[..|done|] == done;
  }

  lemma CompletionTail(id: string, done: seq<Job>, j3: Job, now: int, elapsedMs: nat, textLength: nat,
                       c: Classifier.Classification)
    requires ReadyFor(done, j3, 100)
    ensures GoodTail(done, j3, Completion(id, done, j3, now, elapsedMs, textLength, c))
  {
    var rules := Classifier.ValidateRules(c);
    if !rules.0 {
      FailTail(done, j3, now, "VALIDATION_FAILED", JoinWith(rules.1, ", "), WorkerRulesFailed(rules.1));
    } else {
      var j4 := Advance(j3, now, "completed", 100);
      var w := Completion(id, done, j3, now, elapsedMs, textLength, c).1;
      OrderlySnoc(done, j4);
      OrderlySnoc(done + [j4], w[|w| - 1]);
      assert w == done + [j4] + [w[|w| - 1]];
      assert w[..|done|] == done;
    }
  }

  lemma ClassificationTail(id: string, done: seq<Job>, j2: Job, now: int, elapsedMs: nat, textLength: nat,
                           loadCache: Result<TagCache, string>, model: nat -> Classifier.Attempt,
                           parseJson: string -> Result<Classifier.Json, string>, parseFloat: string -> Option<real>)
    requires loadCache.Success? ==> loadCache.value.Valid()
    requires ReadyFor(done, j2, 50)
    ensures GoodTail(done, j2, Classification(id, done, j2, now, elapsedMs, textLength, loadCache, model, parseJson, parseFloat))
  {
    var j3 := Advance(j2, now, "classification", 50);
    OrderlySnoc(done, j3);
    var r := Classification(id, done, j2, now, elapsedMs, textLength, loadCache, model, parseJson, parseFloat);
    if loadCache.Failure? {
      FailTail(done + [j3], j3, now, "TAG_CACHE_LOAD_FAILED", loadCache.error, WorkerFailed(loadCache.error));
    } else {
      var c := Classifier.Retry(0, Config.ClassificationMaxRetries, None,
                                Classifier.Attempts(model, loadCache.value, parseJson, parseFloat)).0;
      if c.Failure? {
        FailTail(done + [j3], j3, now, "CLASSIFICATION_FAILED", c.error, WorkerFailed(c.error));
      } else {
        CompletionTail(id, done + [j3], j3, now, elapsedMs, textLength, c.value);
      }
    }
    GoodTailShorter(done, j3, j2, r);
  }

  lemma TextCheckTail(id: string, done: seq<Job>, j2: Job, now: int, elapsedMs: nat, text: string,
                      loadCache: Result<TagCache, string>, model: nat -> Classifier.Attempt,
                      parseJson: string -> Result<Classifier.Json, string>, parseFloat: string -> Option<real>)
    requires loadCache.Success? ==> loadCache.value.Valid()
    requires ReadyFor(done, j2, 50)
    ensures GoodTail(done, j2, TextCheck(id, done, j2, now, elapsedMs, text, loadCache, model, parseJson, parseFloat))
  {
    var check := DocumentParser.ValidateExtractedText(Some(text));
    if !check.0 {
      FailTail(done, j2, now, "EXTRACTION_NO_TEXT", check.1.value, WorkerFailed(check.1.value));
    } else {
      ClassificationTail(id, done, j2, now, elapsedMs, |text|, loadCache, model, parseJson, parseFloat);
    }
  }

  lemma ExtractionTail(id: string, done: seq<Job>, j1: Job, now: int, elapsedMs: nat,
                       extractors: string -> Result<string, string>,
                       loadCache: Result<TagCache, string>, model: nat -> Classifier.Attempt,
                       parseJson: string -> Result<Classifier.Json, string>, parseFloat: string -> Option<real>)
    requires loadCache.Success? ==> loadCache.value.Valid()
    requires ReadyFor(done, j1, 30)
    ensures GoodTail(done, j1, Extraction(id, done, j1, now, elapsedMs, extractors, loadCache, model, parseJson, parseFloat))
  {
    var j2 := Advance(j1, now, "text_extraction", 30);
    OrderlySnoc(done, j2);
    var r := Extraction(id, done, j1, now, elapsedMs, extractors, loadCache, model, parseJson, parseFloat);
    var text := DocumentParser.ExtractText(j1.document.mimeType, extractors);
    if text.Failure? {
      FailTail(done + [j2], j2, now, "EXTRACTION_FAILED", text.error, WorkerFailed(text.error));
    } else {
      TextCheckTail(id, done + [j2], j2, now, elapsedMs, text.value, loadCache, model, parseJson, parseFloat);
    }
    GoodTailShorter(done, j2, j1, r);
  }

  /**
   * Whatever happens, the worker first marks the job processing; its writes then raise the
   * percentage while the job stays processing, only the last write may settle it, none touches
   * the job's identity, document or expiry, and the response agrees with the status the job is
   * left in: completed with a result at 100%, failed with one of the five codes, or, when the
   * download raised, still processing.
   */
  lemma RunWrites(id: string, job: Job, now: int, elapsedMs: nat, blobs: map<BlobKey, seq<bv8>>,
                  extract: seq<bv8> -> string -> Result<string, string>, loadCache: Result<TagCache, string>,
                  model: nat -> Classifier.Attempt, parseJson: string -> Result<Classifier.Json, string>,
                  parseFloat: string -> Option<real>)
    requires loadCache.Success? ==> loadCache.value.Valid()
    ensures var r := Run(id, job, now, elapsedMs, blobs, extract, loadCache, model, parseJson, parseFloat);
      r.1[0] == StartProcessing(job, now) && GoodTail([], job, r)
  {
    var j1 := StartProcessing(job, now);
    var loc := ParseStorageRef(job.document.storageRef);
    if loc.Some? && loc.value in blobs {
      ExtractionTail(id, [j1], j1, now, elapsedMs, extract(blobs[loc.value]), loadCache, model, parseJson, parseFloat);
      GoodTailShorter([], j1, job, Run(id, job, now, elapsedMs, blobs, extract, loadCache, model, parseJson, parseFloat));
    }
  }
}
