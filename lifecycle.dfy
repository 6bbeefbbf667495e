/** A job's record across the components, on one Redis server: the backend
    saves it PENDING under `"job:" + jobId` in database 0 and publishes it;
    the pika worker, also on database 0, reads the published map and moves
    the same record on; the backend's poll reads it back. The Celery worker
    is connected to database 2 and writes under the job id it is given, with
    no prefix: the backend sees neither its database nor its key. */
module Lifecycle {
  import opened Outcomes
  import opened Store
  import opened PyJson
  import JobService
  import SummaryService
  import PikaWorker
  import CeleryWorker
  import RedisClient

  /** What `json.loads` makes of the published job map in the pika worker:
      strings stay strings and `null` becomes None. */
  function Delivered(job: JobService.JavaMap): map<string, JsonValue>
  {
    map f | f in job :: if job[f].Some? then Str(job[f].value) else Null
  }

  /** The pika worker is handed the same fields the backend stored, with the
      same string values; a `null` it receives as None is stored as an empty
      value. */
  lemma DeliveredMatchesStored(job: JobService.JavaMap)
    ensures Delivered(job).Keys == JobService.Stored(job).Keys
    ensures forall f :: f in job ==>
              (job[f].Some? ==> Delivered(job)[f] == Str(JobService.Stored(job)[f])) &&
              (job[f].None? ==> Delivered(job)[f] == Null && JobService.Stored(job)[f] == "")
  {
  }

  /** The database the backend saves to and polls. */
  function Backend(server: Server): Db
  {
    Database(server, JobService.Database)
  }

  /** The server after the backend's PENDING save. */
  function Saved(server: Server, jobId: string, filePath: string, createdAt: string): Server
  {
    var job := SummaryService.JobRecord(jobId, filePath, createdAt);
    server[JobService.Database := Put(Backend(server), JobService.JobKey(jobId), JobService.Stored(job))]
  }

  /** The pika worker finds the backend's record: it writes under the key the
      backend saved and polls, and transcribes the file the backend wrote. */
  lemma PikaUsesBackendKey(jobId: string, filePath: string, createdAt: string)
    ensures var body := Delivered(SummaryService.JobRecord(jobId, filePath, createdAt));
            PikaWorker.JobKey(body) == JobService.JobKey(jobId) && Get(body, "filePath") == Str(filePath)
  {
  }

  /** The record the poll shows after the backend's PENDING save and one
      pika task, run against the pika worker's own database. */
  function AfterPika(server: Server, jobId: string, filePath: string, createdAt: string, c: PikaWorker.Collaborators): Hash
  {
    var body := Delivered(SummaryService.JobRecord(jobId, filePath, createdAt));
    var after := ApplyOn(Saved(server, jobId, filePath, createdAt), PikaWorker.Database, PikaWorker.Run(body, c));
    JobService.JobResult(Backend(after), jobId)
  }

  /** The record the poll shows right after the backend's save. */
  function PendingRecord(server: Server, jobId: string, filePath: string, createdAt: string): Hash
  {
    Entries(Backend(server), JobService.JobKey(jobId)) +
    JobService.Stored(SummaryService.JobRecord(jobId, filePath, createdAt))
  }

  /** Both on database 0, the pika task's last write is laid over the PENDING
      record the poll reads. */
  lemma AfterPikaOverlay(server: Server, jobId: string, filePath: string, createdAt: string, c: PikaWorker.Collaborators)
    ensures AfterPika(server, jobId, filePath, createdAt, c) ==
            PendingRecord(server, jobId, filePath, createdAt) + PikaWorker.FinalWrite(c)
  {
    var job := SummaryService.JobRecord(jobId, filePath, createdAt);
    var key := JobService.JobKey(jobId);
    var saved := Saved(server, jobId, filePath, createdAt);
    assert Backend(saved) == Put(Backend(server), key, JobService.Stored(job));
    PikaUsesBackendKey(jobId, filePath, createdAt);
    EntriesPut(Backend(server), key, JobService.Stored(job));
    PikaWorker.FinalOverlay(Backend(saved), Delivered(job), c);
  }

  /** The PENDING record's fields, as stored. */
  lemma PendingFields(server: Server, jobId: string, filePath: string, createdAt: string)
    ensures var pending := PendingRecord(server, jobId, filePath, createdAt);
            SummaryService.RecordFields <= pending.Keys &&
            pending["jobId"] == jobId && pending["filePath"] == filePath && pending["createdAt"] == createdAt &&
            pending["status"] == SummaryService.Pending && pending["errorMessage"] == "" && pending["summaryResult"] == ""
  {
    SummaryService.RecordShape(jobId, filePath, createdAt);
  }

  /** After the backend's PENDING save and one pika task, the polled record
      still holds the job id, file path and creation time the backend wrote. */
  lemma PikaKeepsBackendFields(server: Server, jobId: string, filePath: string, createdAt: string, c: PikaWorker.Collaborators)
    ensures var r := AfterPika(server, jobId, filePath, createdAt, c);
            SummaryService.RecordFields <= r.Keys &&
            r["jobId"] == jobId && r["filePath"] == filePath && r["createdAt"] == createdAt
  {
    var pending := PendingRecord(server, jobId, filePath, createdAt);
    var w := PikaWorker.FinalWrite(c);
    assert "jobId" !in w && "filePath" !in w && "createdAt" !in w;
    AfterPikaOverlay(server, jobId, filePath, createdAt, c);
    PendingFields(server, jobId, filePath, createdAt);
  }

  /** Without a transcription the record ends FAILED with an empty summary. */
  lemma PikaFailedRecord(server: Server, jobId: string, filePath: string, createdAt: string, c: PikaWorker.Collaborators)
    requires !TruthyStr(PikaWorker.Transcription(c.load, c.transcribe))
    ensures var r := AfterPika(server, jobId, filePath, createdAt, c);
            r.Keys >= {"status", "errorMessage", "summaryResult"} &&
            r["status"] == PikaWorker.Failed && r["errorMessage"] == PikaWorker.TranscriptionFailed &&
            r["summaryResult"] == ""
  {
    var pending := PendingRecord(server, jobId, filePath, createdAt);
    var w := PikaWorker.FinalWrite(c);
    assert w == PikaWorker.FailedRecord();
    AfterPikaOverlay(server, jobId, filePath, createdAt, c);
    PendingFields(server, jobId, filePath, createdAt);
  }

  /** A summarised job ends COMPLETED with the stripped reply and the empty
      error the backend stored. */
  lemma PikaCompletedRecord(server: Server, jobId: string, filePath: string, createdAt: string, c: PikaWorker.Collaborators)
    requires TruthyStr(PikaWorker.Transcription(c.load, c.transcribe)) && c.generate.Returns?
    ensures var r := AfterPika(server, jobId, filePath, createdAt, c);
            r.Keys >= {"status", "errorMessage", "summaryResult"} &&
            r["status"] == PikaWorker.Completed &&
            r["summaryResult"] == PikaWorker.StripFence(c.generate.value) && r["errorMessage"] == ""
  {
    var pending := PendingRecord(server, jobId, filePath, createdAt);
    var w := PikaWorker.FinalWrite(c);
    var summary := PikaWorker.StripFence(c.generate.value);
    assert w == PikaWorker.CompletedRecord(summary);
    AfterPikaOverlay(server, jobId, filePath, createdAt, c);
    PendingFields(server, jobId, filePath, createdAt);
  }

  /** A task that crashed in the summariser leaves the record PROCESSING, so
      the poll never sees it finish. */
  lemma PikaCrashLeavesProcessing(server: Server, jobId: string, filePath: string, createdAt: string, c: PikaWorker.Collaborators)
    requires PikaWorker.Ending(c).Crashed?
    ensures var r := AfterPika(server, jobId, filePath, createdAt, c);
            "status" in r && r["status"] == PikaWorker.Processing
  {
    var pending := PendingRecord(server, jobId, filePath, createdAt);
    var w := PikaWorker.FinalWrite(c);
    assert w == PikaWorker.ProcessingRecord();
    AfterPikaOverlay(server, jobId, filePath, createdAt, c);
  }

  /** The Celery worker works in database 2, which the backend never reads:
      whatever key it is given, the poll keeps showing what was there
      before. */
  lemma CeleryInvisibleToBackend(server: Server, objectKey: string, key: string, jobId: string,
                                 c: CeleryWorker.Collaborators, cached: bool)
    ensures var after := ApplyOn(server, RedisClient.Database, CeleryWorker.Run(objectKey, key, c, cached));
            JobService.JobResult(Backend(after), jobId) == JobService.JobResult(Backend(server), jobId)
  {
  }

  /** Even sharing the backend's database, the Celery worker, given the bare
      job id, never writes the record the backend polls. */
  lemma CeleryKeyNotPolled(db: Db, objectKey: string, jobId: string, c: CeleryWorker.Collaborators, cached: bool)
    ensures JobService.JobResult(Apply(db, CeleryWorker.Run(objectKey, jobId, c, cached)), jobId) ==
            JobService.JobResult(db, jobId)
  {
    JobService.JobKeyInjective(jobId, jobId);
    CeleryWorker.OnlyJobKeyWritten(db, objectKey, jobId, c, cached, JobService.JobKey(jobId));
  }
}
