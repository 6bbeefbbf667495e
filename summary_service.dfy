/** The backend's request handler `sendSummaryRequest(file)`: it stores the
    upload in a temporary file, builds the job's PENDING record, saves it
    under `"job:" + jobId`, publishes it to the broker, and answers with the
    job id and status. */
module SummaryService {
  import opened Outcomes
  import opened Store
  import Retry
  import JobService

  const Pending := "PENDING"

  /** The fields of a job record as the backend creates it. */
  const RecordFields: set<string> := {"jobId", "filePath", "status", "errorMessage", "createdAt", "summaryResult"}

  /** The uploaded part: its original file name (`null` when the client sent
      none) and what `transferTo` does with it. */
  datatype Upload = Upload(originalFilename: Option<string>, transfer: Outcome<()>)

  /** `UUID.randomUUID() + "_" + file.getOriginalFilename()`: string
      concatenation renders `null` as "null". */
  function TempFileName(fileUuid: string, originalFilename: Option<string>): string
  {
    fileUuid + "_" + (if originalFilename.Some? then originalFilename.value else "null")
  }

  /** `new File(tempDir + File.separator + name).getAbsolutePath()` for an
      absolute temporary directory: the separator is not doubled when the
      directory already ends with one. */
  function TempFilePath(tempDir: string, name: string): (path: string)
    ensures |path| == |tempDir| + |name| + (if tempDir != [] && tempDir[|tempDir| - 1] == '/' then 0 else 1)
    ensures path[..|tempDir|] == tempDir
    ensures path[|path| - |name|..] == name
    ensures !(tempDir != [] && tempDir[|tempDir| - 1] == '/') ==> path[|tempDir|] == '/'
  {
    if tempDir != [] && tempDir[|tempDir| - 1] == '/' then tempDir + name else tempDir + "/" + name
  }

  /** Two uploads given different UUIDs (all of one length, as the canonical
      36-character text is) never share a temporary file, whatever their
      original names. */
  lemma TempFilesDistinct(tempDir: string, u1: string, u2: string, a: Option<string>, b: Option<string>)
    requires |u1| == |u2| && u1 != u2
    ensures TempFilePath(tempDir, TempFileName(u1, a)) != TempFilePath(tempDir, TempFileName(u2, b))
  {
    var dir := if tempDir != [] && tempDir[|tempDir| - 1] == '/' then tempDir else tempDir + "/";
    var n1, n2 := TempFileName(u1, a), TempFileName(u2, b);
    assert TempFilePath(tempDir, n1) == dir + n1 && TempFilePath(tempDir, n2) == dir + n2;
    assert n1 == u1 + ("_" + (if a.Some? then a.value else "null"));
    assert n2 == u2 + ("_" + (if b.Some? then b.value else "null"));
    InfixAt(dir, u1, "_" + (if a.Some? then a.value else "null"));
    InfixAt(dir, u2, "_" + (if b.Some? then b.value else "null"));
  }

  lemma InfixAt(dir: string, u: string, rest: string)
    ensures (dir + (u + rest))[|dir|..|dir| + |u|] == u
  {
  }

  /** An upload without an original name and one named "null" get the same
      temporary file name. */
  lemma NullNameClash(fileUuid: string)
    ensures TempFileName(fileUuid, None) == TempFileName(fileUuid, Some("null"))
  {
  }

  /** `String.valueOf(millis)` for a non-negative clock reading. */
  function Decimal(n: nat): (s: string)
    ensures |s| >= 1 && forall i :: 0 <= i < |s| ==> '0' <= s[i] <= '9'
    ensures n < 10 <==> |s| == 1
  {
    var digit := ['0' + (n % 10) as char];
    if n < 10 then digit else Decimal(n / 10) + digit
  }

  /** The number a string of decimal digits denotes. */
  function DecimalValue(s: string): nat
    decreases |s|
  {
    if s == [] then 0 else 10 * DecimalValue(s[..|s| - 1]) + DigitValue(s[|s| - 1])
  }

  function DigitValue(c: char): nat
  {
    if '0' <= c <= '9' then c as int - '0' as int else 0
  }

  /** Reading `createdAt` back as a number gives the clock reading, and it has
      no leading zero. */
  lemma {:induction false} DecimalRoundTrip(n: nat)
    ensures DecimalValue(Decimal(n)) == n
    ensures n >= 10 ==> Decimal(n)[0] != '0'
  {
    var s := Decimal(n);
    if n >= 10 {
      DecimalRoundTrip(n / 10);
      assert s[..|s| - 1] == Decimal(n / 10);
      assert s[0] == Decimal(n / 10)[0];
    }
  }

  /** The job map built before saving. */
  function JobRecord(jobId: string, filePath: string, createdAt: string): JobService.JavaMap
  {
    map["jobId" := Some(jobId), "filePath" := Some(filePath), "status" := Some(Pending),
        "errorMessage" := None, "createdAt" := Some(createdAt), "summaryResult" := None]
  }

  /** The answer: the job id and the status of the record. */
  function Response(jobId: string): map<string, string>
  {
    map["jobId" := jobId, "status" := Pending]
  }

  /** A job record has exactly the six fields, PENDING, and no error or
      summary yet; as stored, the two `null`s are empty values. */
  lemma RecordShape(jobId: string, filePath: string, createdAt: string)
    ensures JobRecord(jobId, filePath, createdAt).Keys == RecordFields
    ensures var h := JobService.Stored(JobRecord(jobId, filePath, createdAt));
            h.Keys == RecordFields && h["jobId"] == jobId && h["filePath"] == filePath &&
            h["status"] == Pending && h["createdAt"] == createdAt &&
            h["errorMessage"] == "" && h["summaryResult"] == ""
  {
  }

  /** The answer carries exactly the saved record's id and status. */
  lemma ResponseMatchesRecord(jobId: string, filePath: string, createdAt: string)
    ensures var r := Response(jobId); var job := JobRecord(jobId, filePath, createdAt);
            r.Keys == {"jobId", "status"} && r.Keys <= job.Keys &&
            forall f :: f in r ==> job[f] == Some(r[f])
  {
  }

  /** The message broker, as far as this handler sees it: the job maps
      published so far (each sent as its JSON text). */
  class Broker {
    var published: seq<JobService.JavaMap>

    constructor ()
      ensures published == []
    {
      published := [];
    }

    /** `convertAndSend(exchange, routingKey, jobJson)`; a failure leaves
        nothing published. */
    method ConvertAndSend(message: JobService.JavaMap, outcome: Outcome<()>)
      modifies this
      ensures published == old(published) + (if outcome.Returns? then [message] else [])
    {
      if outcome.Returns? {
        published := published + [message];
      }
    }
  }

  class SummaryServiceImpl {
    const jobService: JobService.JobServiceImpl
    const broker: Broker

    constructor (jobService: JobService.JobServiceImpl, broker: Broker)
      ensures this.jobService == jobService && this.broker == broker
    {
      this.jobService := jobService;
      this.broker := broker;
    }

    /** `sendSummaryRequest(file)`. The temporary directory, the two random
        UUIDs and the clock reading are parameters; `save` is what each try
        of `putAll` does and `publish` what `convertAndSend` does. */
    method SendSummaryRequest(file: Upload, tempDir: string, fileUuid: string, jobUuid: string, clockMillis: nat,
                              save: nat -> Retry.Attempt<()>, publish: Outcome<()>)
      returns (res: Outcome<map<string, string>>, saved: Option<Retry.Supervised<()>>, saveSteps: seq<Retry.Step>)
      modifies jobService.redis, broker
      ensures var job := JobRecord(jobUuid, TempFilePath(tempDir, TempFileName(fileUuid, file.originalFilename)),
                                   Decimal(clockMillis));
              (file.transfer.Raises? ==>
                 res == Raises(file.transfer.message) && saved == None &&
                 jobService.redis.db == old(jobService.redis.db) && broker.published == old(broker.published)) &&
              (file.transfer.Returns? ==>
                 saved.Some? &&
                 Retry.Describes(saved.value, saveSteps, save, JobService.SaveAttempts, JobService.SaveDelayMillis, false)) &&
              (saved.Some? && !saved.value.Live? ==>
                 res.Raises? && jobService.redis.db == old(jobService.redis.db) && broker.published == old(broker.published)) &&
              (saved.Some? && saved.value.Live? ==>
                 jobService.redis.db == Put(old(jobService.redis.db), JobService.JobKey(jobUuid), JobService.Stored(job)) &&
                 broker.published == old(broker.published) + (if publish.Returns? then [job] else []) &&
                 res == (if publish.Returns? then Returns(Response(jobUuid)) else Raises(publish.message)))
    {
      var filePath := TempFileName(fileUuid, file.originalFilename);
      var tempFile := TempFilePath(tempDir, filePath);
      if file.transfer.Raises? {
        return Raises(file.transfer.message), None, [];
      }
      var job: JobService.JavaMap := map[];
      job := job["jobId" := Some(jobUuid)];
      job := job["filePath" := Some(tempFile)];
      job := job["status" := Some(Pending)];
      job := job["errorMessage" := None];
      job := job["createdAt" := Some(Decimal(clockMillis))];
      job := job["summaryResult" := None];
      assert job == JobRecord(jobUuid, tempFile, Decimal(clockMillis));
      var key := "job:" + job["jobId"].value;
      var supervised, outcome;
      supervised, saveSteps, outcome := jobService.SaveData(key, job, save);
      saved := Some(supervised);
      if outcome.Raises? {
        return Raises(outcome.message), saved, saveSteps;
      }
      broker.ConvertAndSend(job, publish);
      if publish.Raises? {
        return Raises(publish.message), saved, saveSteps;
      }
      var response: map<string, string> := map[];
      response := response["jobId" := job["jobId"].value];
      response := response["status" := job["status"].value];
      res := Returns(response);
    }
  }
}
