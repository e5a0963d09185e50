/**
 * The OCR webhook: a request (an uploaded file, or a JSON body naming a file URL) is
 * admitted behind an optional API key, recorded as a `Queued` job and handed to a
 * background task that moves the job to `Running` and then to `Completed` or `Failed`,
 * posting a callback when a callback URL was given. Jobs can be polled by id.
 */
module WebhookApi {
  import opened Wrappers
  import opened Json

  // ---------------------------------------------------------------- the API key

  const Unauthorized: HttpError := HttpError(401, "Unauthorized")

  /**
   * `_require_api_key`: with a configured (non-empty) key, only that exact key is let
   * through; with none, everything is.
   */
  function RequireApiKey(apiKey: Option<string>, inbound: Option<string>): (refused: Option<HttpError>)
    ensures refused.Some? ==> refused.value == Unauthorized
  {
    if apiKey.Some? && apiKey.value != "" && inbound != apiKey then Some(Unauthorized) else None
  }

  /** Without a configured key every inbound key passes, a missing one included. */
  lemma NoKeyAdmitsAll(apiKey: Option<string>, inbound: Option<string>)
    requires apiKey.None? || apiKey == Some("")
    ensures RequireApiKey(apiKey, inbound).None?
  {
  }

  /** With a configured key, exactly that key passes. */
  lemma KeyAdmitsOnlyItself(key: string, inbound: Option<string>)
    requires key != ""
    ensures RequireApiKey(Some(key), inbound).None? <==> inbound == Some(key)
  {
  }

  // ---------------------------------------------------------------- OCR options

  /** `_make_ocr`'s keyword arguments: each option that is not `None`, and only those. */
  function OcrKwargs(dpi: Option<int>, lang: Option<string>): (kwargs: map<string, Value>)
    ensures kwargs.Keys <= {"dpi", "lang"}
    ensures "dpi" in kwargs <==> dpi.Some?
    ensures "lang" in kwargs <==> lang.Some?
    ensures dpi.Some? ==> kwargs["dpi"] == Num(dpi.value)
    ensures lang.Some? ==> kwargs["lang"] == Str(lang.value)
  {
    var withDpi: map<string, Value> := if dpi.Some? then map["dpi" := Num(dpi.value)] else map[];
    if lang.Some? then withDpi["lang" := Str(lang.value)] else withDpi
  }

  /** With neither option the OCR engine is built with its own defaults. */
  lemma NoOptionsNoKwargs()
    ensures OcrKwargs(None, None) == map[]
  {
  }

  // ---------------------------------------------------------------- intake

  /** The JSON body of `POST /webhook/ocr`; every field is optional. */
  datatype OcrWebhookJson = OcrWebhookJson(
    fileUrl: Option<string>,
    callbackUrl: Option<string>,
    language: Option<string>,
    dpi: Option<int>,
    correlationId: Option<string>)

  /** A multipart upload; only its file name is looked at. */
  datatype Upload = Upload(filename: Option<string>)

  /** Where the job's document came from. */
  datatype Source = Uploaded(filename: string) | Downloaded(url: string)

  /** What the background task of a job works with. */
  datatype RunContext = RunContext(
    source: Source,
    dpi: Option<int>,
    lang: Option<string>,
    callback: Option<string>,
    correlation: Option<string>)

  /** A request is refused with an HTTP error, or fails because its file URL could not be fetched. */
  datatype IntakeError = Rejected(error: HttpError) | DownloadFailed

  const NoInput: HttpError := HttpError(400, "Provide a 'file' or 'fileUrl'.")

  /** The request names a file URL. */
  predicate HasFileUrl(payload: Option<OcrWebhookJson>) {
    payload.Some? && payload.value.fileUrl.Some?
  }

  /**
   * The branch of `webhook_ocr` that picks the input. An upload wins, and then every
   * option stays unset; otherwise a file URL is fetched (`downloadOk` says whether that
   * succeeded) and the options come from the body; with neither the request is a 400.
   */
  function Intake(payload: Option<OcrWebhookJson>, file: Option<Upload>, downloadOk: bool)
    : (r: Result<RunContext, IntakeError>)
    ensures file.Some? ==> r.Ok? && r.value.source.Uploaded? &&
                           r.value.dpi.None? && r.value.lang.None? &&
                           r.value.callback.None? && r.value.correlation.None?
    ensures file.None? && !HasFileUrl(payload) ==> r == Err(Rejected(NoInput))
    ensures file.None? && HasFileUrl(payload) && !downloadOk ==> r == Err(DownloadFailed)
    ensures file.None? && HasFileUrl(payload) && downloadOk ==>
              var p := payload.value;
              r == Ok(RunContext(Downloaded(p.fileUrl.value), p.dpi, p.language, p.callbackUrl, p.correlationId))
  {
    if file.Some? then
      var name := if file.value.filename.Some? && file.value.filename.value != "" then file.value.filename.value
                  else "upload.bin";
      Ok(RunContext(Uploaded(name), None, None, None, None))
    else if HasFileUrl(payload) then
      if !downloadOk then Err(DownloadFailed)
      else
        var p := payload.value;
        Ok(RunContext(Downloaded(p.fileUrl.value), p.dpi, p.language, p.callbackUrl, p.correlationId))
    else Err(Rejected(NoInput))
  }

  // ---------------------------------------------------------------- jobs

  datatype JobStatus = Queued | Running | Completed | Failed

  function StatusName(s: JobStatus): string {
    match s
    case Queued => "Queued"
    case Running => "Running"
    case Completed => "Completed"
    case Failed => "Failed"
  }

  /** The moves a job's status can make. */
  predicate Step(a: JobStatus, b: JobStatus) {
    (a == Queued && b == Running) || (a == Running && (b == Completed || b == Failed))
  }

  /** A finished job never moves again. */
  lemma FinishedIsFinal(a: JobStatus, b: JobStatus)
    requires a == Completed || a == Failed
    ensures !Step(a, b)
  {
  }

  datatype OcrResult = OcrResult(text: string, words: seq<Value>)

  const OcrErrorCode: string := "OCR_ERROR"

  datatype JobError = JobError(message: string, code: string)

  datatype Metadata = Metadata(version: string, dpi: Option<int>, lang: Option<string>)

  /** One entry of `JOBS`. */
  datatype JobRecord = JobRecord(
    status: JobStatus,
    fileId: string,
    result: Option<OcrResult>,
    error: Option<JobError>,
    metadata: Metadata)

  /** What the OCR engine did: returned the text and words, or raised. */
  datatype OcrOutcome = Succeeded(text: string, words: seq<Value>) | Raised(message: string)

  /** The record a new job starts from. */
  function NewRecord(version: string, jobId: string, ctx: RunContext): (rec: JobRecord)
    ensures WellFormed(jobId, rec) && rec.status == Queued
  {
    JobRecord(Queued, "f_" + jobId, None, None, Metadata(version, ctx.dpi, ctx.lang))
  }

  /** What `run_job` leaves in a running record once the OCR engine has answered. */
  function Finished(rec: JobRecord, outcome: OcrOutcome): JobRecord {
    match outcome
    case Succeeded(text, words) => rec.(status := Completed, result := Some(OcrResult(text, words)))
    case Raised(message) => rec.(status := Failed, error := Some(JobError(message, OcrErrorCode)))
  }

  /**
   * The shape every record keeps: its file id is `f_` and the job id; a job that has not
   * finished has neither result nor error; a completed one has a result and no error; a
   * failed one has an `OCR_ERROR` error and no result.
   */
  predicate WellFormed(jobId: string, rec: JobRecord) {
    rec.fileId == "f_" + jobId &&
    (rec.status == Queued || rec.status == Running ==> rec.result.None? && rec.error.None?) &&
    (rec.status == Completed ==> rec.result.Some? && rec.error.None?) &&
    (rec.status == Failed ==> rec.result.None? && rec.error.Some? && rec.error.value.code == OcrErrorCode)
  }

  /**
   * A run takes a queued job to `Running` and then to exactly one of `Completed` (on
   * success) and `Failed` (on an exception), keeping the record's shape throughout.
   */
  lemma RunLifecycle(jobId: string, rec: JobRecord, outcome: OcrOutcome)
    requires WellFormed(jobId, rec) && rec.status == Queued
    ensures var running := rec.(status := Running);
            var done := Finished(running, outcome);
            Step(rec.status, running.status) && Step(running.status, done.status) &&
            WellFormed(jobId, running) && WellFormed(jobId, done) &&
            (done.status == Completed <==> outcome.Succeeded?) &&
            (outcome.Succeeded? ==> done.result == Some(OcrResult(outcome.text, outcome.words))) &&
            (outcome.Raised? ==> done.error == Some(JobError(outcome.message, OcrErrorCode)))
  {
  }

  // ---------------------------------------------------------------- JSON forms

  function OptStr(o: Option<string>): Value {
    if o.Some? then Str(o.value) else Null
  }

  function OptNum(o: Option<int>): Value {
    if o.Some? then Num(o.value) else Null
  }

  function MetadataJson(m: Metadata): Value {
    Obj(map["docuocr_version" := Str(m.version), "dpi" := OptNum(m.dpi), "lang" := OptStr(m.lang)])
  }

  function ResultJson(r: Option<OcrResult>): Value {
    if r.Some? then Obj(map["text" := Str(r.value.text), "words" := Arr(r.value.words)]) else Null
  }

  function ErrorJson(e: Option<JobError>): Value {
    if e.Some? then Obj(map["message" := Str(e.value.message), "code" := Str(e.value.code)]) else Null
  }

  /** The record as the JSON dictionary stored in `JOBS`. */
  function RecordJson(rec: JobRecord): (o: Object)
    ensures o.Keys == {"status", "fileId", "result", "error", "metadata"}
    ensures o["status"] == Str(StatusName(rec.status)) && o["fileId"] == Str(rec.fileId)
    ensures o["result"] == ResultJson(rec.result) && o["error"] == ErrorJson(rec.error)
    ensures o["metadata"] == MetadataJson(rec.metadata)
  {
    map["status" := Str(StatusName(rec.status)),
        "fileId" := Str(rec.fileId),
        "result" := ResultJson(rec.result),
        "error" := ErrorJson(rec.error),
        "metadata" := MetadataJson(rec.metadata)]
  }

  /** The body posted when a job completes or fails. */
  function CallbackBody(jobId: string, rec: JobRecord, correlation: Option<string>): (body: Object)
    requires rec.status == Completed || rec.status == Failed
  {
    var common := map["jobId" := Str(jobId), "fileId" := Str(rec.fileId), "correlationId" := OptStr(correlation)];
    if rec.status == Completed then
      common["eventType" := Str("ocr.completed")]["result" := ResultJson(rec.result)]
            ["metadata" := MetadataJson(rec.metadata)]
    else
      common["eventType" := Str("ocr.failed")]["error" := ErrorJson(rec.error)]
  }

  /** A callback that would be posted. */
  datatype Callback = Callback(url: string, body: Object)

  /** `_maybe_callback`: nothing is sent without a callback URL. */
  function MaybeCallback(url: Option<string>, body: Object): (sent: Option<Callback>)
    ensures sent.Some? <==> url.Some? && url.value != ""
    ensures sent.Some? ==> sent.value.url == url.value && sent.value.body == body
  {
    if url.None? || url.value == "" then None else Some(Callback(url.value, body))
  }

  /**
   * A finished job's callback names the event by its outcome and carries the job id, the
   * job's `f_` file id and the caller's correlation id.
   */
  lemma CallbackCarriesIds(jobId: string, rec: JobRecord, outcome: OcrOutcome, correlation: Option<string>)
    requires WellFormed(jobId, rec) && rec.status == Queued
    ensures var body := CallbackBody(jobId, Finished(rec.(status := Running), outcome), correlation);
            "eventType" in body && "jobId" in body && "fileId" in body && "correlationId" in body &&
            body["eventType"] == Str(if outcome.Succeeded? then "ocr.completed" else "ocr.failed") &&
            body["jobId"] == Str(jobId) && body["fileId"] == Str("f_" + jobId) &&
            body["correlationId"] == OptStr(correlation) &&
            (outcome.Succeeded? <==> "result" in body) && (outcome.Raised? <==> "error" in body)
  {
  }

  /** The reply to an admitted request: the job id and where to poll it, also sent as `Location`. */
  datatype Accepted = Accepted(jobId: string, body: Object, location: string)

  /** A background task waiting to run. */
  datatype Task = Task(jobId: string, ctx: RunContext)

  const NotFound: HttpError := HttpError(404, "Not found")

  /**
   * `JOBS` and the background tasks not yet run. `apiKey` is `DOCUFY_API_KEY` and
   * `version` the OCR library's version, both fixed when the server starts.
   */
  class JobTable {
    var jobs: map<string, JobRecord>
    var tasks: seq<Task>
    const apiKey: Option<string>
    const version: string

    /**
     * Every record keeps its shape, and every pending task belongs to a distinct job
     * that is still queued.
     */
    predicate Valid()
      reads this
    {
      (forall id :: id in jobs ==> WellFormed(id, jobs[id])) &&
      (forall i :: 0 <= i < |tasks| ==> tasks[i].jobId in jobs && jobs[tasks[i].jobId].status == Queued) &&
      (forall i, j :: 0 <= i < j < |tasks| ==> tasks[i].jobId != tasks[j].jobId)
    }

    constructor (apiKey: Option<string>, version: string)
      ensures Valid() && jobs == map[] && tasks == []
      ensures this.apiKey == apiKey && this.version == version
    {
      jobs := map[];
      tasks := [];
      this.apiKey := apiKey;
      this.version := version;
    }

    /** `uuid4()`: an id no job has yet. */
    method FreshId() returns (id: string)
      ensures id !in jobs
    {
      var longest: nat := 0;
      var rest := jobs.Keys;
      while rest != {}
        invariant rest <= jobs.Keys
        invariant forall k :: k in jobs && k !in rest ==> |k| <= longest
        decreases |rest|
      {
        var k :| k in rest;
        if |k| > longest {
          longest := |k|;
        }
        rest := rest - {k};
      }
      id := seq(longest + 1, _ => 'x');
    }

    /**
     * `webhook_ocr`: the key is checked first, then the input is picked; only then is a
     * fresh job recorded as queued and its run scheduled, and the reply points to it.
     */
    method WebhookOcr(inbound: Option<string>, payload: Option<OcrWebhookJson>, file: Option<Upload>,
                      downloadOk: bool)
      returns (r: Result<Accepted, IntakeError>)
      requires Valid()
      modifies this
      ensures Valid()
      ensures RequireApiKey(apiKey, inbound).Some? ==> r == Err(Rejected(Unauthorized))
      ensures RequireApiKey(apiKey, inbound).None? && Intake(payload, file, downloadOk).Err? ==>
                r == Err(Intake(payload, file, downloadOk).error)
      ensures r.Err? ==> jobs == old(jobs) && tasks == old(tasks)
      ensures r.Ok? ==> RequireApiKey(apiKey, inbound).None? && Intake(payload, file, downloadOk).Ok?
      ensures r.Ok? ==>
                var id := r.value.jobId;
                var ctx := Intake(payload, file, downloadOk).value;
                id !in old(jobs) &&
                jobs == old(jobs)[id := NewRecord(version, id, ctx)] &&
                tasks == old(tasks) + [Task(id, ctx)] &&
                r.value.location == "/webhook/jobs/" + id &&
                r.value.body == map["jobId" := Str(id), "status" := Str("Queued"), "location" := Str(r.value.location)]
    {
      var refused := RequireApiKey(apiKey, inbound);
      if refused.Some? {
        return Err(Rejected(refused.value));
      }
      var intake := Intake(payload, file, downloadOk);
      if intake.Err? {
        return Err(intake.error);
      }
      var ctx := intake.value;
      var id := FreshId();
      jobs := jobs[id := NewRecord(version, id, ctx)];
      tasks := tasks + [Task(id, ctx)];
      var location := "/webhook/jobs/" + id;
      r := Ok(Accepted(id, map["jobId" := Str(id), "status" := Str("Queued"), "location" := Str(location)], location));
    }

    /** The first step of `run_job`: the job is marked running. */
    method BeginRun(jobId: string)
      requires jobId in jobs
      modifies this
      ensures jobs == old(jobs)[jobId := old(jobs)[jobId].(status := Running)]
      ensures tasks == old(tasks)
    {
      jobs := jobs[jobId := jobs[jobId].(status := Running)];
    }

    /**
     * The rest of `run_job`: the job is completed with the engine's text and words, or
     * failed with its message, and the matching callback goes to the callback URL.
     */
    method FinishRun(jobId: string, ctx: RunContext, outcome: OcrOutcome) returns (sent: Option<Callback>)
      requires jobId in jobs
      modifies this
      ensures jobs == old(jobs)[jobId := Finished(old(jobs)[jobId], outcome)]
      ensures tasks == old(tasks)
      ensures sent == MaybeCallback(ctx.callback, CallbackBody(jobId, jobs[jobId], ctx.correlation))
    {
      var rec := jobs[jobId];
      match outcome {
        case Succeeded(text, words) =>
          rec := rec.(status := Completed);
          rec := rec.(result := Some(OcrResult(text, words)));
        case Raised(message) =>
          rec := rec.(status := Failed);
          rec := rec.(error := Some(JobError(message, OcrErrorCode)));
      }
      jobs := jobs[jobId := rec];
      sent := MaybeCallback(ctx.callback, CallbackBody(jobId, rec, ctx.correlation));
    }

    /**
     * The background runner: the oldest pending task runs its job from queued through
     * running to finished; no other job changes.
     */
    method RunNextTask(outcome: OcrOutcome) returns (sent: Option<Callback>)
      requires Valid()
      modifies this
      ensures Valid()
      ensures old(tasks) == [] ==> jobs == old(jobs) && tasks == [] && sent.None?
      ensures old(tasks) != [] ==>
                var t := old(tasks)[0];
                var done := Finished(old(jobs)[t.jobId].(status := Running), outcome);
                old(jobs)[t.jobId].status == Queued &&
                tasks == old(tasks)[1..] &&
                jobs == old(jobs)[t.jobId := done] &&
                sent == MaybeCallback(t.ctx.callback, CallbackBody(t.jobId, done, t.ctx.correlation))
    {
      if tasks == [] {
        return None;
      }
      var t := tasks[0];
      ghost var before := jobs;
      tasks := tasks[1..];
      BeginRun(t.jobId);
      sent := FinishRun(t.jobId, t.ctx, outcome);
      RunLifecycle(t.jobId, before[t.jobId], outcome);
      forall i | 0 <= i < |tasks|
        ensures tasks[i].jobId in jobs && jobs[tasks[i].jobId].status == Queued
      {
        assert tasks[i] == old(tasks)[i + 1];
      }
    }

    /** `get_job`: 404 for an unknown id, else the record with its `jobId`. */
    function GetJob(jobId: string): (r: Result<Object, HttpError>)
      reads this
      ensures jobId !in jobs <==> r == Err(NotFound)
      ensures r.Ok? ==> r.value.Keys == {"jobId", "status", "fileId", "result", "error", "metadata"}
      ensures r.Ok? ==> r.value["jobId"] == Str(jobId) &&
                        forall k :: k in RecordJson(jobs[jobId]) ==> r.value[k] == RecordJson(jobs[jobId])[k]
    {
      if jobId !in jobs then Err(NotFound)
      else Ok(RecordJson(jobs[jobId])["jobId" := Str(jobId)])
    }

    /** A polled job reports the `f_` file id of its own job id. */
    lemma PolledFileId(jobId: string)
      requires Valid() && jobId in jobs
      ensures GetJob(jobId).Ok? && GetJob(jobId).value["fileId"] == Str("f_" + jobId)
    {
    }

    /**
     * What a polling client reads: a completed job carries the engine's text and words
     * and no error; a failed one carries its message with the `OCR_ERROR` code and no
     * result; a job still queued or running carries neither.
     */
    lemma PolledOutcome(jobId: string)
      requires Valid() && jobId in jobs
      ensures var o := GetJob(jobId).value;
              var rec := jobs[jobId];
              GetJob(jobId).Ok? &&
              (rec.status == Completed ==>
                 o["result"] == Obj(map["text" := Str(rec.result.value.text), "words" := Arr(rec.result.value.words)]) &&
                 o["error"] == Null) &&
              (rec.status == Failed ==>
                 o["error"] == Obj(map["message" := Str(rec.error.value.message), "code" := Str(OcrErrorCode)]) &&
                 o["result"] == Null) &&
              (rec.status == Queued || rec.status == Running ==> o["result"] == Null && o["error"] == Null)
    {
      assert WellFormed(jobId, jobs[jobId]);
    }
  }
}
