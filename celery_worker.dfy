/** The Celery task worker: `process_task` marks the job PROCESSING, then
    downloads the audio, transcribes it with a Whisper model loaded at most
    once per process, summarises the transcription, and records COMPLETED or
    FAILED. Every status write is `update_status`, which sets all three
    fields of the record stored under the job id exactly as passed. */
module CeleryWorker {
  import opened Outcomes
  import opened Store
  import JsonString

  const Processing := "PROCESSING"
  const Completed := "COMPLETED"
  const Failed := "FAILED"
  const EmptyTranscription := "Transcription failed or returned empty"

  /** The fields every `update_status` writes. */
  const StatusFields: set<string> := {"status", "summaryResult", "errorMessage"}

  /** A loaded Whisper model. */
  datatype Model = Model(id: nat)

  /** What the opaque steps of one task do: `download_file` (a local path),
      `whisper.load_model` (only called while no model is cached),
      `model.transcribe(path)["text"]` and Gemini's `generate_content(...).text`. */
  datatype Collaborators = Collaborators(
    download: Outcome<string>,
    load: Outcome<Model>,
    transcribe: Outcome<string>,
    generate: Outcome<string>)

  datatype Call = Download(objectKey: string) | LoadModel | Transcribe(path: string) | Generate(transcript: string)

  /** The mapping `update_status(job_id, status, result, error_message)` writes:
      a falsy result or error is stored as "". */
  function StatusRecord(status: string, result: Option<string>, error: Option<string>): (h: Hash)
    ensures h.Keys == StatusFields
    ensures h["status"] == status
  {
    map["status" := status,
        "summaryResult" := if TruthyStr(result) then JsonString.Dumps(result.value) else "",
        "errorMessage" := if TruthyStr(error) then error.value else ""]
  }

  /** The record of a finished task: COMPLETED with its summary, or FAILED
      with the exception's text. */
  function Terminal(o: Outcome<string>): Hash
  {
    match o
    case Returns(summary) => StatusRecord(Completed, Some(summary), None)
    case Raises(message) => StatusRecord(Failed, None, Some(message))
  }

  /** What a COMPLETED record and a FAILED record hold. The stored summary is
      `json.dumps` of the summary text, so one JSON decoding gives the text
      back (the front end therefore parses it twice). */
  lemma TerminalRecord(o: Outcome<string>)
    ensures Terminal(o).Keys == StatusFields
    ensures o.Returns? ==> Terminal(o)["status"] == Completed && Terminal(o)["errorMessage"] == ""
    ensures o.Returns? && o.value != "" ==> JsonString.Loads(Terminal(o)["summaryResult"]) == Some(o.value)
    ensures o.Returns? && o.value == "" ==> Terminal(o)["summaryResult"] == ""
    ensures o.Raises? ==> Terminal(o)["status"] == Failed && Terminal(o)["summaryResult"] == ""
                          && Terminal(o)["errorMessage"] == o.message
  {
    if o.Returns? && o.value != "" {
      JsonString.DumpsRoundTrip(o.value);
    }
  }

  /** How the try block of `process_task` ends: the first exception raised by
      the download, the model load, the transcription, the empty-transcription
      check or the summariser; otherwise the summary. */
  function PipelineResult(c: Collaborators, cached: bool): Outcome<string>
  {
    if c.download.Raises? then Raises(c.download.message)
    else if !cached && c.load.Raises? then Raises(c.load.message)
    else if c.transcribe.Raises? then Raises(c.transcribe.message)
    else if c.transcribe.value == "" then Raises(EmptyTranscription)
    else c.generate
  }

  /** The events one `process_task(object_key, job_id)` produces; `cached`
      says whether the process already holds a Whisper model. */
  function Run(objectKey: string, jobId: string, c: Collaborators, cached: bool): seq<Event<Call>>
  {
    [Wrote(jobId, StatusRecord(Processing, None, None)), Called(Download(objectKey))] +
    match c.download
    case Raises(e) => [Wrote(jobId, Terminal(Raises(e)))]
    case Returns(path) =>
      WhisperCalls(path, c.load, cached) + AfterTranscription(jobId, WhisperResult(c.load, c.transcribe, cached), c.generate)
  }

  /** The calls `run_whisper` makes: the model load when nothing is cached,
      then the transcription once a model is at hand. */
  function WhisperCalls(path: string, load: Outcome<Model>, cached: bool): seq<Event<Call>>
  {
    (if cached then [] else [Called(LoadModel)]) +
    (if cached || load.Returns? then [Called(Transcribe(path))] else [])
  }

  /** The PROCESSING write and the download, ahead of the rest of a task. */
  lemma HeadThen(db: Db, jobId: string, objectKey: string, rest: seq<Event<Call>>)
    ensures Apply(db, [Wrote(jobId, StatusRecord(Processing, None, None)), Called(Download(objectKey))] + rest) ==
            Apply(Put(db, jobId, StatusRecord(Processing, None, None)), rest)
  {
    var w: seq<Event<Call>> := [Wrote(jobId, StatusRecord(Processing, None, None))];
    var d: seq<Event<Call>> := [Called(Download(objectKey))];
    assert [Wrote(jobId, StatusRecord(Processing, None, None)), Called(Download(objectKey))] == w + d;
    assert w + d + rest == w + (d + rest);
    ApplyConcat(db, w, d + rest);
    ApplyWrite<Call>(db, jobId, StatusRecord(Processing, None, None));
    CallsThen(Put(db, jobId, StatusRecord(Processing, None, None)), d, rest);
  }

  lemma WhisperCallsOnly(path: string, load: Outcome<Model>, cached: bool)
    ensures forall i :: 0 <= i < |WhisperCalls(path, load, cached)| ==> WhisperCalls(path, load, cached)[i].Called?
  {
  }

  /** What `run_whisper` returns or raises. */
  function WhisperResult(load: Outcome<Model>, transcribe: Outcome<string>, cached: bool): Outcome<string>
  {
    if !cached && load.Raises? then Raises(load.message) else transcribe
  }

  /** The events after `run_whisper`: `summarize`'s own events, then the
      terminal write of the handler or of the success path. */
  function AfterTranscription(jobId: string, text: Outcome<string>, generate: Outcome<string>): seq<Event<Call>>
  {
    match text
    case Raises(e) => [Wrote(jobId, Terminal(Raises(e)))]
    case Returns(t) =>
      SummarizeEvents(jobId, t) + [Wrote(jobId, Terminal(SummarizeResult(t, generate)))]
  }

  /** The events of `summarize`: a FAILED write for an empty transcription,
      otherwise the call of the summariser. */
  function SummarizeEvents(jobId: string, transcription: string): seq<Event<Call>>
  {
    if transcription == "" then [Wrote(jobId, StatusRecord(Failed, None, Some(EmptyTranscription)))]
    else [Called(Generate(transcription))]
  }

  /** What `summarize` returns or raises. */
  function SummarizeResult(transcription: string, generate: Outcome<string>): Outcome<string>
  {
    if transcription == "" then Raises(EmptyTranscription) else generate
  }

  /** The task completes exactly when every step returns and the transcription
      is not empty, and then with the summariser's text. */
  lemma CompletesIffAllStepsReturn(c: Collaborators, cached: bool)
    ensures PipelineResult(c, cached).Returns? <==>
              c.download.Returns? && (cached || c.load.Returns?) && c.transcribe.Returns? &&
              c.transcribe.value != "" && c.generate.Returns?
    ensures PipelineResult(c, cached).Returns? ==> PipelineResult(c, cached).value == c.generate.value
  {
  }

  /** PROCESSING is written before the download, and every write is a full
      three-field record under the job id as passed, with no prefix. */
  lemma RunWrites(objectKey: string, jobId: string, c: Collaborators, cached: bool)
    ensures |Run(objectKey, jobId, c, cached)| >= 3
    ensures Run(objectKey, jobId, c, cached)[0] == Wrote(jobId, StatusRecord(Processing, None, None))
    ensures Run(objectKey, jobId, c, cached)[1] == Called(Download(objectKey))
    ensures forall i :: 0 <= i < |Run(objectKey, jobId, c, cached)| && Run(objectKey, jobId, c, cached)[i].Wrote? ==>
              Run(objectKey, jobId, c, cached)[i].key == jobId &&
              Run(objectKey, jobId, c, cached)[i].fields.Keys == StatusFields
  {
  }

  /** The last event is the terminal write, never PROCESSING. */
  lemma RunEndsTerminal(objectKey: string, jobId: string, c: Collaborators, cached: bool)
    ensures var t := Run(objectKey, jobId, c, cached);
            |t| >= 1 && t[|t| - 1] == Wrote(jobId, Terminal(PipelineResult(c, cached)))
    ensures Terminal(PipelineResult(c, cached))["status"] in {Completed, Failed}
  {
  }

  /** The summariser is only ever asked about a non-empty transcription; on an
      empty one the task writes the same FAILED record twice (once in
      `summarize`, once in the handler of `process_task`) and stops. */
  lemma NeverSummarizesEmpty(objectKey: string, jobId: string, c: Collaborators, cached: bool)
    ensures var t := Run(objectKey, jobId, c, cached);
            forall i :: 0 <= i < |t| && t[i].Called? && t[i].call.Generate? ==> t[i].call.transcript != ""
    ensures c.download.Returns? && (cached || c.load.Returns?) && c.transcribe == Returns("") ==>
              var t := Run(objectKey, jobId, c, cached);
              (forall i :: 0 <= i < |t| && t[i].Called? ==> !t[i].call.Generate?) &&
              t[|t| - 2] == t[|t| - 1] == Wrote(jobId, StatusRecord(Failed, None, Some(EmptyTranscription)))
  {
  }

  /** After a task the record holds the terminal fields over whatever else the
      hash held: every write fully replaces the previous one's fields. */
  lemma FinalRecord(db: Db, objectKey: string, jobId: string, c: Collaborators, cached: bool)
    ensures Entries(Apply(db, Run(objectKey, jobId, c, cached)), jobId) ==
            Entries(db, jobId) + Terminal(PipelineResult(c, cached))
  {
    var t := Run(objectKey, jobId, c, cached);
    RunWrites(objectKey, jobId, c, cached);
    RunEndsTerminal(objectKey, jobId, c, cached);
    LastWriteWins(db, t, jobId, StatusFields);
  }

  /** Re-running a job (a redelivered message) leaves only the latest run's
      outcome in the record; nothing of the earlier run remains. */
  lemma RerunOverwrites(db: Db, objectKey: string, jobId: string, first: Collaborators, firstCached: bool,
                        second: Collaborators, secondCached: bool)
    ensures Entries(Apply(Apply(db, Run(objectKey, jobId, first, firstCached)), Run(objectKey, jobId, second, secondCached)), jobId)
            == Entries(db, jobId) + Terminal(PipelineResult(second, secondCached))
  {
    var once := Apply(db, Run(objectKey, jobId, first, firstCached));
    FinalRecord(db, objectKey, jobId, first, firstCached);
    FinalRecord(once, objectKey, jobId, second, secondCached);
    TerminalRecord(PipelineResult(first, firstCached));
    TerminalRecord(PipelineResult(second, secondCached));
    Overwrite(Entries(db, jobId), Terminal(PipelineResult(first, firstCached)), Terminal(PipelineResult(second, secondCached)));
  }

  /** A task touches no key but its job id. */
  lemma OnlyJobKeyWritten(db: Db, objectKey: string, jobId: string, c: Collaborators, cached: bool, other: string)
    requires other != jobId
    ensures Entries(Apply(db, Run(objectKey, jobId, c, cached)), other) == Entries(db, other)
  {
    RunWrites(objectKey, jobId, c, cached);
    ApplyElsewhere(db, Run(objectKey, jobId, c, cached), other);
  }

  /** One worker process: its Redis client, the module-level `WHISPER_MODEL`,
      and (ghost) the events it has produced. */
  class Worker {
    const redis: Redis
    var whisperModel: Option<Model>
    ghost var loads: nat
    ghost var trace: seq<Event<Call>>

    /** The model is loaded at most once per process. */
    ghost predicate Valid()
      reads this
    {
      loads <= 1 && (whisperModel.Some? <==> loads == 1)
    }

    constructor (redis: Redis)
      ensures Valid() && this.redis == redis && whisperModel == None && trace == []
    {
      this.redis := redis;
      whisperModel := None;
      loads := 0;
      trace := [];
    }

    /** `get_whisper_model`: load on first use, then always the same model. */
    method GetWhisperModel(load: Outcome<Model>) returns (m: Outcome<Model>)
      requires Valid()
      modifies this
      ensures Valid()
      ensures old(whisperModel).Some? ==>
                m == Returns(old(whisperModel).value) && whisperModel == old(whisperModel) && trace == old(trace)
      ensures old(whisperModel).None? ==>
                m == load && trace == old(trace) + [Called(LoadModel)] &&
                whisperModel == (if load.Returns? then Some(load.value) else None)
    {
      if whisperModel.None? {
        trace := trace + [Called(LoadModel)];
        if load.Raises? {
          return load;
        }
        whisperModel := Some(load.value);
        loads := loads + 1;
      }
      m := Returns(whisperModel.value);
    }

    /** `update_status`. */
    method UpdateStatus(jobId: string, status: string, result: Option<string>, error: Option<string>)
      requires Valid()
      modifies this`trace, redis
      ensures Valid()
      ensures trace == old(trace) + [Wrote(jobId, StatusRecord(status, result, error))]
      ensures redis.db == Put(old(redis.db), jobId, StatusRecord(status, result, error))
    {
      var record := StatusRecord(status, result, error);
      redis.HSet(jobId, record);
      trace := trace + [Wrote(jobId, record)];
    }

    /** `download_file`: an opaque fetch returning a local path or raising. */
    method DownloadFile(objectKey: string, fetch: Outcome<string>) returns (path: Outcome<string>)
      requires Valid()
      modifies this`trace
      ensures Valid()
      ensures path == fetch && trace == old(trace) + [Called(Download(objectKey))]
    {
      trace := trace + [Called(Download(objectKey))];
      path := fetch;
    }

    /** `run_whisper`: errors from loading or transcribing are re-raised. */
    method RunWhisper(path: string, load: Outcome<Model>, transcribe: Outcome<string>) returns (text: Outcome<string>)
      requires Valid()
      modifies this
      ensures Valid()
      ensures whisperModel == (if old(whisperModel).Some? then old(whisperModel)
                               else if load.Returns? then Some(load.value) else None)
      ensures text == WhisperResult(load, transcribe, old(whisperModel).Some?)
      ensures trace == old(trace) + WhisperCalls(path, load, old(whisperModel).Some?)
    {
      var model := GetWhisperModel(load);
      if model.Raises? {
        return Raises(model.message);
      }
      trace := trace + [Called(Transcribe(path))];
      text := transcribe;
    }

    /** `summarize`: an empty transcription is recorded as FAILED and raised as
        a ValueError with the same text; otherwise the summariser's text. */
    method Summarize(jobId: string, transcription: string, generate: Outcome<string>) returns (summary: Outcome<string>)
      requires Valid()
      modifies this`trace, redis
      ensures Valid()
      ensures summary == SummarizeResult(transcription, generate)
      ensures trace == old(trace) + SummarizeEvents(jobId, transcription)
      ensures redis.db == Apply(old(redis.db), SummarizeEvents(jobId, transcription))
    {
      if transcription == "" {
        UpdateStatus(jobId, Failed, None, Some(EmptyTranscription));
        ApplyWrite<Call>(old(redis.db), jobId, StatusRecord(Failed, None, Some(EmptyTranscription)));
        return Raises(EmptyTranscription);
      }
      trace := trace + [Called(Generate(transcription))];
      ApplyCalls(redis.db, [Called(Generate(transcription))]);
      summary := generate;
    }

    /** `process_task(object_key, job_id)`. */
    method ProcessTask(objectKey: string, jobId: string, c: Collaborators)
      requires Valid()
      modifies this, redis
      ensures Valid()
      ensures trace == old(trace) + Run(objectKey, jobId, c, old(whisperModel).Some?)
      ensures redis.db == Apply(old(redis.db), Run(objectKey, jobId, c, old(whisperModel).Some?))
      ensures whisperModel == (if old(whisperModel).Some? then old(whisperModel)
                               else if c.download.Returns? && c.load.Returns? then Some(c.load.value) else None)
    {
      ghost var cached := whisperModel.Some?;
      ghost var db0 := redis.db;
      ghost var head := [Wrote(jobId, StatusRecord(Processing, None, None)), Called(Download(objectKey))];
      UpdateStatus(jobId, Processing, None, None);
      var path := DownloadFile(objectKey, c.download);
      assert trace == old(trace) + head;
      ghost var db1 := redis.db;
      ghost var rest: seq<Event<Call>>;
      if path.Raises? {
        UpdateStatus(jobId, Failed, None, Some(path.message));
        rest := [Wrote(jobId, Terminal(Raises(path.message)))];
        ApplyWrite<Call>(db1, jobId, Terminal(Raises(path.message)));
      } else {
        ghost var calls := WhisperCalls(path.value, c.load, cached);
        ghost var t0 := trace;
        var text := RunWhisper(path.value, c.load, c.transcribe);
        assert text == WhisperResult(c.load, c.transcribe, cached);
        ghost var t1 := trace;
        ghost var after: seq<Event<Call>>;
        if text.Raises? {
          UpdateStatus(jobId, Failed, None, Some(text.message));
          after := [Wrote(jobId, Terminal(Raises(text.message)))];
          ApplyWrite<Call>(db1, jobId, Terminal(Raises(text.message)));
        } else {
          var summary := Summarize(jobId, text.value, c.generate);
          ghost var t2 := trace;
          ghost var db2 := redis.db;
          if summary.Raises? {
            UpdateStatus(jobId, Failed, None, Some(summary.message));
          } else {
            UpdateStatus(jobId, Completed, Some(summary.value), None);
          }
          after := SummarizeEvents(jobId, text.value) + [Wrote(jobId, Terminal(summary))];
          AppendAssoc(t1, SummarizeEvents(jobId, text.value), [Wrote(jobId, Terminal(summary))]);
          ApplyWrite<Call>(db2, jobId, Terminal(summary));
          ApplyConcat(db1, SummarizeEvents(jobId, text.value), [Wrote(jobId, Terminal(summary))]);
        }
        assert after == AfterTranscription(jobId, WhisperResult(c.load, c.transcribe, cached), c.generate);
        rest := calls + after;
        AppendAssoc(t0, calls, after);
        WhisperCallsOnly(path.value, c.load, cached);
        CallsThen(db1, calls, after);
      }
      assert Run(objectKey, jobId, c, cached) == head + rest;
      AppendAssoc(old(trace), head, rest);
      HeadThen(db0, jobId, objectKey, rest);
    }
  }
}
