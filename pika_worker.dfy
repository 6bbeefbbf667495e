/** The pika consumer variant of the worker: at start-up it connects to Redis
    and to RabbitMQ with bounded retry loops; for each delivery `on_message`
    decides between nack, ack and spawning a process for `process_task`,
    which marks the job PROCESSING under `"job:" + jobId`, transcribes the
    file (None on any Whisper error), and records COMPLETED with Gemini's
    reply (one ```json fence removed) or FAILED. Its writes name only the
    fields they set. */
module PikaWorker {
  import opened Outcomes
  import opened Store
  import opened PyJson
  import Retry
  import PyText

  const MaxAttempts: nat := 10
  const DelayMillis: nat := 3000

  /** The client is built from a host and a port alone, so it works in Redis
      database 0. */
  const Database: nat := 0

  const Processing := "PROCESSING"
  const Completed := "COMPLETED"
  const Failed := "FAILED"
  const TranscriptionFailed := "Transcription failed"
  const Fence := "```json"

  // ---------------------------------------------------------------------
  // Gemini's reply: removing a ```json fence

  /** The test on the reply: its first eight characters, stripped, are
      exactly ```json. */
  predicate Fenced(text: string)
  {
    PyText.Strip(PyText.Slice(text, 0, 8)) == Fence
  }

  /** What is stored as `summaryResult`: `text[8:-3]` when fenced, otherwise
      the reply verbatim. */
  function StripFence(text: string): (r: string)
    ensures |r| <= |text|
    ensures r != text ==> Fenced(text) && (r == [] || (|text| >= 11 && r == text[8..|text| - 3]))
  {
    if Fenced(text) then PyText.Slice(text, 8, -3) else text
  }

  /** The fence test holds exactly when the reply starts with ```json followed
      by whitespace or by nothing, or with one whitespace character and then
      ```json. */
  lemma FencedIff(text: string)
    ensures Fenced(text) <==>
              (|text| >= 7 && text[..7] == Fence && (|text| == 7 || PyText.IsSpace(text[7]))) ||
              (|text| >= 8 && PyText.IsSpace(text[0]) && text[1..8] == Fence)
  {
    var p := PyText.Slice(text, 0, 8);
    assert p == text[..if |text| < 8 then |text| else 8];
    PyText.StripBounds(p);
    if |text| >= 7 && text[..7] == Fence && (|text| == 7 || PyText.IsSpace(text[7])) {
      assert p == Fence || p == Fence + [text[7]];
      assert PyText.LStrip(p) == p;
      if |text| > 7 {
        assert p[..7] == Fence;
        assert PyText.RStrip(p) == PyText.RStrip(Fence);
      }
      assert PyText.RStrip(Fence) == Fence;
    }
    if |text| >= 8 && PyText.IsSpace(text[0]) && text[1..8] == Fence {
      assert p == [text[0]] + Fence;
      assert p[1..] == Fence;
      assert PyText.LStrip(p) == PyText.LStrip(Fence) == Fence;
      assert PyText.RStrip(Fence) == Fence;
    }
  }

  /** A fenced reply loses its first eight and last three characters (all of
      it when shorter than eleven); any other reply is stored as it is. */
  lemma StripFenceResult(text: string)
    ensures Fenced(text) && |text| >= 11 ==> StripFence(text) == text[8..|text| - 3]
    ensures Fenced(text) && |text| < 11 ==> StripFence(text) == ""
    ensures !Fenced(text) ==> StripFence(text) == text
  {
  }

  /** A reply Gemini wraps in a Markdown code block, "```json", a line break,
      the JSON, then "```", is stored as exactly the JSON. */
  lemma FenceRoundTrip(json: string)
    ensures StripFence(Fence + "\n" + json + "```") == json
  {
    var text := Fence + "\n" + json + "```";
    assert text[..7] == Fence;
    assert text[7] == '\n';
    FencedIff(text);
    assert text[8..|text| - 3] == json;
  }

  // ---------------------------------------------------------------------
  // process_task

  /** The opaque steps of one task: `whisper.load_model("tiny")`,
      `model.transcribe(file_path)["text"]` and `generate_content(...).text`. */
  datatype Collaborators = Collaborators(load: Outcome<()>, transcribe: Outcome<string>, generate: Outcome<string>)

  datatype Call = LoadModel | Transcribe(path: JsonValue) | Generate(transcript: string)

  /** How `process_task` ends: normally, or with the exception that
      `generate_content` raised, which nothing catches. */
  datatype TaskEnd = Finished | Crashed(message: string)

  /** The record key `f"job:{body.get('jobId')}"`. */
  function JobKey(body: map<string, JsonValue>): string
  {
    "job:" + PyStr(Get(body, "jobId"))
  }

  /** Messages with string job ids write to the same record exactly when
      their ids are equal. */
  lemma JobKeySeparatesIds(a: map<string, JsonValue>, b: map<string, JsonValue>)
    requires "jobId" in a && a["jobId"].Str? && "jobId" in b && b["jobId"].Str?
    ensures JobKey(a) == JobKey(b) <==> a["jobId"].s == b["jobId"].s
  {
    if JobKey(a) == JobKey(b) {
      assert a["jobId"].s == JobKey(a)[4..] && b["jobId"].s == JobKey(b)[4..];
    }
  }

  /** A message without a job id, one whose job id is null, and one whose job
      id is the string "None" all write the same record, "job:None". */
  lemma MissingJobIdShared(body: map<string, JsonValue>)
    requires "jobId" !in body
    ensures JobKey(body) == JobKey(map["jobId" := Null]) == JobKey(map["jobId" := Str("None")]) == "job:None"
  {
  }

  /** What `run_whisper` returns: the text, or None when loading or
      transcribing raised. */
  function Transcription(load: Outcome<()>, transcribe: Outcome<string>): Option<string>
  {
    if load.Raises? || transcribe.Raises? then None else Some(transcribe.value)
  }

  /** The calls `run_whisper` makes: it loads the model on every call. */
  function WhisperCalls(path: JsonValue, load: Outcome<()>): seq<Event<Call>>
  {
    [Called(LoadModel)] + (if load.Returns? then [Called(Transcribe(path))] else [])
  }

  function ProcessingRecord(): Hash
  {
    map["status" := Processing]
  }

  function CompletedRecord(summary: string): Hash
  {
    map["status" := Completed, "summaryResult" := summary]
  }

  function FailedRecord(): Hash
  {
    map["status" := Failed, "errorMessage" := TranscriptionFailed]
  }

  /** The events after `run_whisper` returns `text`. */
  function AfterTranscription(key: string, text: Option<string>, generate: Outcome<string>): seq<Event<Call>>
  {
    if TruthyStr(text) then
      [Called(Generate(text.value))] +
      match generate
      case Returns(reply) => [Wrote(key, CompletedRecord(StripFence(reply)))]
      case Raises(_) => []
    else [Wrote(key, FailedRecord())]
  }

  /** The events of one `process_task(body)`. */
  function Run(body: map<string, JsonValue>, c: Collaborators): seq<Event<Call>>
  {
    [Wrote(JobKey(body), ProcessingRecord())] + WhisperCalls(Get(body, "filePath"), c.load) +
    AfterTranscription(JobKey(body), Transcription(c.load, c.transcribe), c.generate)
  }

  function Ending(c: Collaborators): TaskEnd
  {
    if TruthyStr(Transcription(c.load, c.transcribe)) && c.generate.Raises? then Crashed(c.generate.message)
    else Finished
  }

  /** PROCESSING is written under `"job:" + jobId` before Whisper is touched;
      every write goes to that key. */
  lemma ProcessingFirst(body: map<string, JsonValue>, c: Collaborators)
    ensures var t := Run(body, c);
            |t| >= 2 && t[0] == Wrote(JobKey(body), map["status" := Processing]) && t[1] == Called(LoadModel)
    ensures var t := Run(body, c);
            forall i :: 0 <= i < |t| && t[i].Wrote? ==> t[i].key == JobKey(body)
  {
  }

  /** Without a (truthy) transcription Gemini is never asked and the task
      records FAILED with "Transcription failed" as its last write. */
  lemma FailsWithoutTranscription(body: map<string, JsonValue>, c: Collaborators)
    requires !TruthyStr(Transcription(c.load, c.transcribe))
    ensures var t := Run(body, c);
            (forall i :: 0 <= i < |t| && t[i].Called? ==> !t[i].call.Generate?) &&
            t[|t| - 1] == Wrote(JobKey(body), map["status" := Failed, "errorMessage" := TranscriptionFailed])
    ensures Ending(c) == Finished
  {
    var key := JobKey(body);
    var prefix := [Wrote(key, ProcessingRecord())] + WhisperCalls(Get(body, "filePath"), c.load);
    var t := Run(body, c);
    assert t == prefix + [Wrote(key, FailedRecord())];
  }

  /** With a transcription Gemini is asked exactly about it; the task then
      either records COMPLETED last or crashes right after the request. */
  lemma SummarizesTranscription(body: map<string, JsonValue>, c: Collaborators)
    requires TruthyStr(Transcription(c.load, c.transcribe))
    ensures var t := Run(body, c); var text := Transcription(c.load, c.transcribe).value;
            (forall i :: 0 <= i < |t| && t[i].Called? && t[i].call.Generate? ==> t[i].call.transcript == text) &&
            (Ending(c).Crashed? <==> t[|t| - 1] == Called(Generate(text)))
    ensures var t := Run(body, c);
            exists i :: 0 <= i < |t| && t[i] == Called(Generate(Transcription(c.load, c.transcribe).value))
    ensures c.load.Returns? && c.transcribe.Returns?
  {
    var text := Transcription(c.load, c.transcribe).value;
    var key := JobKey(body);
    var prefix := [Wrote(key, ProcessingRecord())] + WhisperCalls(Get(body, "filePath"), c.load);
    var rest := AfterTranscription(key, Some(text), c.generate);
    var t := Run(body, c);
    assert t == prefix + rest;
    assert forall i :: 0 <= i < |prefix| && prefix[i].Called? ==> !prefix[i].call.Generate?;
    assert forall i :: 0 <= i < |rest| && rest[i].Called? ==> rest[i] == Called(Generate(text));
    assert t[|prefix|] == Called(Generate(text));
    if c.generate.Returns? {
      assert t[|t| - 1] == rest[1];
    }
  }

  /** The store after a task: the PROCESSING write, then the write of the
      outcome, if any. */
  lemma {:induction false} RunApplied(db: Db, body: map<string, JsonValue>, c: Collaborators)
    ensures var key := JobKey(body); var db1 := Put(db, key, ProcessingRecord());
            var text := Transcription(c.load, c.transcribe);
            Apply(db, Run(body, c)) ==
              if !TruthyStr(text) then Put(db1, key, FailedRecord())
              else if c.generate.Returns? then Put(db1, key, CompletedRecord(StripFence(c.generate.value)))
              else db1
  {
    var key := JobKey(body);
    var text := Transcription(c.load, c.transcribe);
    var head := [Wrote(key, ProcessingRecord())];
    var calls := WhisperCalls(Get(body, "filePath"), c.load);
    var rest := AfterTranscription(key, text, c.generate);
    var db1 := Put(db, key, ProcessingRecord());
    ApplyWrite<Call>(db, key, ProcessingRecord());
    WhisperCallsOnly(Get(body, "filePath"), c.load);
    ApplyCalls(db1, calls);
    ApplyConcat(db, head, calls);
    ApplyConcat(db, head + calls, rest);
    if !TruthyStr(text) {
      ApplyWrite<Call>(db1, key, FailedRecord());
    } else {
      var g := [Called(Generate(text.value))];
      ApplyCalls(db1, g);
      if c.generate.Returns? {
        var w := [Wrote(key, CompletedRecord(StripFence(c.generate.value)))];
        assert rest == g + w;
        ApplyConcat(db1, g, w);
        ApplyWrite<Call>(db1, key, CompletedRecord(StripFence(c.generate.value)));
      } else {
        assert rest == g;
      }
    }
  }

  lemma WhisperCallsOnly(path: JsonValue, load: Outcome<()>)
    ensures forall i :: 0 <= i < |WhisperCalls(path, load)| ==> WhisperCalls(path, load)[i].Called?
  {
  }

  /** The record a task leaves: each write names only the fields it sets, so
      a FAILED record keeps whatever `summaryResult` it had, a COMPLETED one
      keeps its `errorMessage`, and a crash in `generate_content` leaves the
      status at PROCESSING. */
  lemma FinalRecord(db: Db, body: map<string, JsonValue>, c: Collaborators)
    ensures var before := Entries(db, JobKey(body)); var after := Entries(Apply(db, Run(body, c)), JobKey(body));
            var text := Transcription(c.load, c.transcribe);
            (!TruthyStr(text) ==> after == before + map["status" := Failed, "errorMessage" := TranscriptionFailed]) &&
            (TruthyStr(text) && c.generate.Returns? ==>
               after == before + map["status" := Completed, "summaryResult" := StripFence(c.generate.value)]) &&
            (Ending(c).Crashed? ==> after == before + map["status" := Processing])
  {
    var key := JobKey(body);
    var text := Transcription(c.load, c.transcribe);
    var db1 := Put(db, key, ProcessingRecord());
    RunApplied(db, body, c);
    EntriesPut(db, key, ProcessingRecord());
    if !TruthyStr(text) {
      EntriesPut(db1, key, FailedRecord());
      Overwrite(Entries(db, key), ProcessingRecord(), FailedRecord());
    } else if c.generate.Returns? {
      EntriesPut(db1, key, CompletedRecord(StripFence(c.generate.value)));
      Overwrite(Entries(db, key), ProcessingRecord(), CompletedRecord(StripFence(c.generate.value)));
    }
  }

  /** The fields the task's last write sets: FAILED, COMPLETED, or, after a
      crash in `generate_content`, the PROCESSING write. */
  function FinalWrite(c: Collaborators): (w: Hash)
    ensures "status" in w && w.Keys <= {"status", "summaryResult", "errorMessage"}
  {
    if !TruthyStr(Transcription(c.load, c.transcribe)) then FailedRecord()
    else if c.generate.Returns? then CompletedRecord(StripFence(c.generate.value))
    else ProcessingRecord()
  }

  /** The record after a task is the record before with the last write's
      fields laid over it. */
  lemma FinalOverlay(db: Db, body: map<string, JsonValue>, c: Collaborators)
    ensures Entries(Apply(db, Run(body, c)), JobKey(body)) == Entries(db, JobKey(body)) + FinalWrite(c)
  {
    FinalRecord(db, body, c);
  }

  /** A task touches no key but its own record. */
  lemma OnlyJobKeyWritten(db: Db, body: map<string, JsonValue>, c: Collaborators, other: string)
    requires other != JobKey(body)
    ensures Entries(Apply(db, Run(body, c)), other) == Entries(db, other)
  {
    ProcessingFirst(body, c);
    ApplyElsewhere(db, Run(body, c), other);
  }

  /** One spawned worker process. */
  class Worker {
    const redis: Redis
    ghost var trace: seq<Event<Call>>

    constructor (redis: Redis)
      ensures this.redis == redis && trace == []
    {
      this.redis := redis;
      trace := [];
    }

    /** `run_whisper(file_path)`: any error is logged and turned into None. */
    method RunWhisper(path: JsonValue, load: Outcome<()>, transcribe: Outcome<string>) returns (text: Option<string>)
      modifies this`trace
      ensures text == Transcription(load, transcribe)
      ensures trace == old(trace) + WhisperCalls(path, load)
    {
      trace := trace + [Called(LoadModel)];
      if load.Raises? {
        return None;
      }
      trace := trace + [Called(Transcribe(path))];
      if transcribe.Raises? {
        return None;
      }
      text := Some(transcribe.value);
    }

    /** `process_task(body_json)`. */
    method ProcessTask(body: map<string, JsonValue>, c: Collaborators) returns (end: TaskEnd)
      modifies this`trace, redis
      ensures trace == old(trace) + Run(body, c)
      ensures redis.db == Apply(old(redis.db), Run(body, c))
      ensures end == Ending(c)
    {
      var filePath := Get(body, "filePath");
      var key := "job:" + PyStr(Get(body, "jobId"));
      assert key == JobKey(body);
      RunApplied(redis.db, body, c);
      redis.HSet(key, map["status" := Processing]);
      trace := trace + [Wrote(key, ProcessingRecord())];
      ghost var t1 := trace;
      var transcription := RunWhisper(filePath, c.load, c.transcribe);
      ghost var t2 := trace;
      if transcription.Some? && transcription.value != "" {
        trace := trace + [Called(Generate(transcription.value))];
        if c.generate.Raises? {
          end := Crashed(c.generate.message);
          assert trace == t2 + AfterTranscription(key, transcription, c.generate);
        } else {
          var responseText := c.generate.value;
          if Fenced(responseText) {
            responseText := PyText.Slice(responseText, 8, -3);
          }
          assert responseText == StripFence(c.generate.value);
          redis.HSet(key, map["status" := Completed, "summaryResult" := responseText]);
          trace := trace + [Wrote(key, CompletedRecord(responseText))];
          end := Finished;
          assert trace == t2 + AfterTranscription(key, transcription, c.generate);
        }
      } else {
        redis.HSet(key, map["status" := Failed, "errorMessage" := TranscriptionFailed]);
        trace := trace + [Wrote(key, FailedRecord())];
        end := Finished;
        assert trace == t2 + AfterTranscription(key, transcription, c.generate);
      }
      ghost var calls := WhisperCalls(filePath, c.load);
      ghost var after := AfterTranscription(key, transcription, c.generate);
      assert t2 == t1 + calls;
      AppendAssoc(t1, calls, after);
      assert t1 == old(trace) + [Wrote(key, ProcessingRecord())];
      AppendAssoc(old(trace), [Wrote(key, ProcessingRecord())], calls + after);
      AppendAssoc([Wrote(key, ProcessingRecord())], calls, after);
      assert Run(body, c) == [Wrote(key, ProcessingRecord())] + calls + after;
    }
  }

  // ---------------------------------------------------------------------
  // on_message

  /** A delivery's body as `json.loads` sees it: not JSON at all, or a
      loaded document. */
  datatype Delivery = Unparseable | Parsed(doc: Document)

  /** What `on_message` does to the broker and the process table. */
  datatype Action = Spawn(body: map<string, JsonValue>) | Ack(tag: nat) | Nack(tag: nat, requeue: bool)

  /** The actions for one delivery; `started` says whether creating and
      starting the process succeeds. A body that is not JSON, or whose `.get`
      fails because it is not an object, is nacked without requeueing. A
      missing or empty `filePath` is acked and skipped. Otherwise the process
      is started and then the message acked. */
  function Reaction(d: Delivery, tag: nat, started: bool): (r: seq<Action>)
    ensures 1 <= |r| <= 2 && Settles(r[|r| - 1]) && r[|r| - 1].tag == tag
  {
    match d
    case Unparseable => [Nack(tag, false)]
    case Parsed(NonObject(_)) => [Nack(tag, false)]
    case Parsed(Object(fields)) =>
      if !Truthy(Get(fields, "filePath")) then [Ack(tag)]
      else if started then [Spawn(fields), Ack(tag)]
      else [Nack(tag, false)]
  }

  predicate Settles(a: Action)
  {
    a.Ack? || a.Nack?
  }

  /** Every delivery is settled exactly once, by its last action, with its own
      tag, and never put back on the queue. A process is spawned exactly for an
      object with a truthy `filePath` whose process starts, and then before the
      ack; a body that is not a JSON object never spawns one. */
  lemma ReactionSettlesOnce(d: Delivery, tag: nat, started: bool)
    ensures var r := Reaction(d, tag, started);
            |r| >= 1 && Settles(r[|r| - 1]) && r[|r| - 1].tag == tag &&
            (forall i :: 0 <= i < |r| - 1 ==> !Settles(r[i])) &&
            (forall i :: 0 <= i < |r| && r[i].Nack? ==> !r[i].requeue)
    ensures var r := Reaction(d, tag, started);
            (exists i :: 0 <= i < |r| && r[i].Spawn?) <==>
              d.Parsed? && d.doc.Object? && Truthy(Get(d.doc.fields, "filePath")) && started
    ensures var r := Reaction(d, tag, started);
            forall i :: 0 <= i < |r| && r[i].Spawn? ==> i == 0 && r == [Spawn(d.doc.fields), Ack(tag)]
    ensures d.Unparseable? || d.doc.NonObject? ==> Reaction(d, tag, started) == [Nack(tag, false)]
  {
    var r := Reaction(d, tag, started);
    if d.Parsed? && d.doc.Object? && Truthy(Get(d.doc.fields, "filePath")) && started {
      assert r[0].Spawn?;
    }
  }

  /** The actions for a run of deliveries, in order. */
  function Reactions(ds: seq<(Delivery, nat, bool)>): seq<Action>
    decreases |ds|
  {
    if ds == [] then []
    else Reactions(ds[..|ds| - 1]) + Reaction(ds[|ds| - 1].0, ds[|ds| - 1].1, ds[|ds| - 1].2)
  }

  /** How many of `acts` settle a delivery, and how many spawn a process. */
  function Settlements(acts: seq<Action>): nat
    decreases |acts|
  {
    if acts == [] then 0 else Settlements(acts[..|acts| - 1]) + (if Settles(acts[|acts| - 1]) then 1 else 0)
  }

  function Spawns(acts: seq<Action>): nat
    decreases |acts|
  {
    if acts == [] then 0 else Spawns(acts[..|acts| - 1]) + (if acts[|acts| - 1].Spawn? then 1 else 0)
  }

  lemma {:induction false} CountsConcat(a: seq<Action>, b: seq<Action>)
    ensures Settlements(a + b) == Settlements(a) + Settlements(b)
    ensures Spawns(a + b) == Spawns(a) + Spawns(b)
    decreases |b|
  {
    if b == [] {
      assert a + b == a;
    } else {
      assert (a + b)[..|a + b| - 1] == a + b[..|b| - 1];
      CountsConcat(a, b[..|b| - 1]);
    }
  }

  lemma CountReaction(d: Delivery, tag: nat, started: bool)
    ensures Settlements(Reaction(d, tag, started)) == 1
    ensures Spawns(Reaction(d, tag, started)) <= 1
  {
    var r := Reaction(d, tag, started);
    if |r| == 2 {
      assert r == [Spawn(d.doc.fields), Ack(tag)];
      assert r[..1] == [r[0]] && [r[0]][..0] == [];
      assert Spawns([r[0]]) == 1 && Settlements([r[0]]) == 0;
    } else {
      assert r[..0] == [];
    }
  }

  /** Over any run of deliveries the consumer settles each one exactly once
      and spawns at most one process per delivery. */
  lemma {:induction false} EachDeliverySettled(ds: seq<(Delivery, nat, bool)>)
    ensures Settlements(Reactions(ds)) == |ds|
    ensures Spawns(Reactions(ds)) <= |ds|
    decreases |ds|
  {
    if ds != [] {
      var last := ds[|ds| - 1];
      EachDeliverySettled(ds[..|ds| - 1]);
      CountsConcat(Reactions(ds[..|ds| - 1]), Reaction(last.0, last.1, last.2));
      CountReaction(last.0, last.1, last.2);
    }
  }

  /** The consumer's effects so far: spawned processes, acks and nacks. */
  class Consumer {
    var actions: seq<Action>

    constructor ()
      ensures actions == []
    {
      actions := [];
    }

    /** `on_message(channel, method_frame, header_frame, body)`. */
    method OnMessage(d: Delivery, tag: nat, started: bool)
      modifies this
      ensures actions == old(actions) + Reaction(d, tag, started)
    {
      if d.Unparseable? || d.doc.NonObject? {
        actions := actions + [Nack(tag, false)];
        return;
      }
      var filePath := Get(d.doc.fields, "filePath");
      if !Truthy(filePath) {
        actions := actions + [Ack(tag)];
        return;
      }
      if !started {
        actions := actions + [Nack(tag, false)];
        return;
      }
      actions := actions + [Spawn(d.doc.fields)];
      actions := actions + [Ack(tag)];
    }
  }

  // ---------------------------------------------------------------------
  // Start-up

  /** The Redis loop: `ping(k)` is constructing the client and pinging on
      try k; only redis-py's `ConnectionError` is retried, and after the tenth
      the loop calls `sys.exit(1)`, whose argument `sysExitCode` records. Any
      other exception (`Escaped`) ends the process uncaught. */
  method ConnectRedis<T>(ping: nat -> Retry.Attempt<T>)
    returns (res: Retry.Supervised<T>, steps: seq<Retry.Step>, r: Option<T>, sysExitCode: Option<int>)
    ensures Retry.Describes(res, steps, ping, MaxAttempts, DelayMillis, false)
    ensures r.Some? <==> res.Live?
    ensures res.Live? ==> r == Some(res.conn)
    ensures sysExitCode == (if res.Exhausted? then Some(1) else None)
  {
    res, steps := Retry.Supervise(ping, MaxAttempts, DelayMillis, false);
    r := if res.Live? then Some(res.conn) else None;
    sysExitCode := if res.Exhausted? then Some(1) else None;
  }

  /** The RabbitMQ loop: `open(k)` is opening the blocking connection on
      try k; any exception is retried, so the loop ends connected or, after
      ten failures, with a call of `sys.exit(1)`. */
  method ConnectRabbit<T>(open: nat -> Retry.Attempt<T>)
    returns (res: Retry.Supervised<T>, steps: seq<Retry.Step>, connection: Option<T>, sysExitCode: Option<int>)
    ensures Retry.Describes(res, steps, open, MaxAttempts, DelayMillis, true)
    ensures !res.Escaped?
    ensures connection.Some? <==> res.Live?
    ensures res.Live? ==> connection == Some(res.conn)
    ensures sysExitCode == (if res.Exhausted? then Some(1) else None)
  {
    res, steps := Retry.Supervise(open, MaxAttempts, DelayMillis, true);
    connection := if res.Live? then Some(res.conn) else None;
    sysExitCode := if res.Exhausted? then Some(1) else None;
  }

  /** Module start-up: the Redis loop, a fixed three-second pause, then the
      RabbitMQ loop, which is reached only once Redis answered. Together they
      make at most twenty tries. `sysExitCode` is the argument of a
      `sys.exit` call; a Redis error that is not a `ConnectionError` ends
      start-up uncaught instead. */
  method Startup<R, C>(ping: nat -> Retry.Attempt<R>, open: nat -> Retry.Attempt<C>)
    returns (redisRes: Retry.Supervised<R>, redisSteps: seq<Retry.Step>, rabbitRes: Option<Retry.Supervised<C>>,
             rabbitSteps: seq<Retry.Step>, steps: seq<Retry.Step>, sysExitCode: Option<int>)
    ensures Retry.Describes(redisRes, redisSteps, ping, MaxAttempts, DelayMillis, false)
    ensures rabbitRes.Some? <==> redisRes.Live?
    ensures rabbitRes.Some? ==> Retry.Describes(rabbitRes.value, rabbitSteps, open, MaxAttempts, DelayMillis, true) &&
                                !rabbitRes.value.Escaped?
    ensures steps == redisSteps + (if redisRes.Live? then [Retry.Sleep(DelayMillis)] + rabbitSteps else [])
    ensures sysExitCode == Some(1) <==> redisRes.Exhausted? || (rabbitRes.Some? && rabbitRes.value.Exhausted?)
    ensures sysExitCode.None? ==> redisRes.Escaped? || (redisRes.Live? && rabbitRes.value.Live?)
    ensures Retry.Tries(steps) <= 2 * MaxAttempts
  {
    var r;
    redisRes, redisSteps, r, sysExitCode := ConnectRedis(ping);
    Retry.AtMostMaxAttempts(redisRes, redisSteps, ping, MaxAttempts, DelayMillis, false);
    steps := redisSteps;
    rabbitSteps := [];
    if !redisRes.Live? {
      rabbitRes := None;
      assert steps == redisSteps + [];
      return;
    }
    var rabbit, connection;
    rabbit, rabbitSteps, connection, sysExitCode := ConnectRabbit(open);
    Retry.AtMostMaxAttempts(rabbit, rabbitSteps, open, MaxAttempts, DelayMillis, true);
    Retry.CountConcat(redisSteps, [Retry.Sleep(DelayMillis)] + rabbitSteps);
    Retry.CountConcat([Retry.Sleep(DelayMillis)], rabbitSteps);
    assert Retry.Tries([Retry.Sleep(DelayMillis)]) == 0 by {
      assert [Retry.Sleep(DelayMillis)][1..] == [];
    }
    steps := redisSteps + ([Retry.Sleep(DelayMillis)] + rabbitSteps);
    rabbitRes := Some(rabbit);
  }
}
