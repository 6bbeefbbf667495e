# Video summarizer: the job-status lifecycle

This project models how a summarisation job's status record moves through the
video summarizer, and proves properties of that model.

- The Spring backend (`sendSummaryRequest`) stores the upload in a temporary
  file. It builds the job's PENDING record, saves it as a Redis hash under
  `"job:" + jobId` with a bounded retry, publishes it to RabbitMQ, and answers
  with the job id and status.
- The backend's poll (`getJobResult`) reads the hash under `"job:" + jobId`.
  The backend never selects a Redis database, so it works in database 0.
- The pika worker (`worker/main.py`) connects to Redis database 0 and to
  RabbitMQ with bounded retry loops. Each delivery is nacked, acked, or handed to a new
  process. That process marks the job PROCESSING, transcribes the file, and
  records COMPLETED with Gemini's reply (minus one ```` ```json ```` fence) or
  FAILED.
- The Celery worker (`worker/celery_worker.py`, connected by
  `worker/redis_client.py`) runs the same pipeline with a cached Whisper
  model. Every write sets all three status fields. It writes under the job id
  exactly as given, with no `"job:"` prefix, and in Redis database 2. The
  backend's poll therefore sees none of its writes, whatever key it is given.

Modules:

- `Store`: the Redis hash store, its numbered databases, and a replay of a
  trace of writes.
- `Outcomes`: the `Option` and `Outcome` (returns or raises) values.
- `Retry`: the bounded connect-and-retry loop that all four retry sites share.
- `RedisClient`, `PikaWorker`, `CeleryWorker`: the two workers.
- `JobService`, `SummaryService`: the two backend services.
- `JsonString`: `json.dumps` on a string, and its decoder.
- `PyJson`, `PyText`: the parts of Python's `dict.get`, truthiness, `str.strip`
  and slicing that the workers rely on.
- `Lifecycle`: connects the backend's record to what each worker does to it.

Each worker process is a class:

- It holds a Redis connection.
- It keeps a ghost trace of its writes and collaborator calls.
- Its methods are proved against a pure function `Run` that gives a task's
  trace.
- Lemmas about `Run` and about `Apply` (the store after a trace) state what
  the poll then sees.

Things outside the model become parameters:

- the result of each opaque step: download, Whisper, Gemini, file transfer,
  publish;
- each connection try;
- the random UUIDs;
- the clock.

The Celery worker's handling of falsy values is modelled as written:

- An empty summary is stored as "", not as `json.dumps("")`.
- An exception with empty text is stored as FAILED with an empty errorMessage.

## Model

| member | source | states |
|---|---|---|
| Store.Put | worker/celery_worker.py:58-62 | HSET with a mapping: the named fields take the new values, the hash's other fields and every other key keep theirs, and a store without empty hashes stays so |
| Store.ApplyOverlays | worker/celery_worker.py:57-62 | replaying a trace leaves, under a key, the old hash with every field written to that key laid over it, later writes winning |
| Store.LastWriteWins | worker/celery_worker.py:57-62 | when the last write to a key names every field any earlier write to it named, the hash ends as the old hash with that last write over it |
| Store.ApplyElsewhere | worker/main.py:117-141 | a key that no write of the trace names keeps its hash |
| Store.ApplyOn | worker/redis_client.py:25-32 | a client's writes go to the database it selected; every other database keeps its keys |
| Store.Redis.HSet | worker/celery_worker.py:58-62 | the store after the call is the merge of the mapping into the hash at the key |
| Retry.Supervise | worker/redis_client.py:22-44 | the loop's verdict: connected on try k after k-1 retried failures, exhausted after maxAttempts retried failures, or escaped on the first failure that is not retried; with the steps taken, sleeping only between tries |
| Retry.ScheduleCounts | worker/redis_client.py:22-41 | k tries take k-1 sleeps |
| Retry.AtMostMaxAttempts | worker/redis_client.py:22-44 | whatever the connection does, the loop tries between 1 and maxAttempts times and sleeps once fewer |
| Retry.SucceedsAfterFailures | worker/redis_client.py:22-35 | k retried failures followed by a success, with k below the bound, give a live connection on try k+1 |
| Retry.AlwaysFailingExhausts | worker/redis_client.py:36-44 | a connection that always fails with retried errors uses every try and sleeps between them |
| RedisClient.ConnectionSettings | worker/redis_client.py:10-32 | host defaults to "redis", database 2, and credentials are taken from the environment only when APP_ENV is "prod" |
| RedisClient.Connect | worker/redis_client.py:17-44 | ten tries three seconds apart, only ConnectionError retried; the client is bound exactly when a try connected; sys.exit(1) is called exactly when every try failed with a retried error, and any other error ends the process uncaught |
| JsonString.Dumps | worker/celery_worker.py:60 | json.dumps of a string writes a JSON string literal, opening and closing with a double quote |
| JsonString.DumpsRoundTrip | worker/celery_worker.py:60 | decoding the JSON string literal that json.dumps writes gives back the summary text |
| JsonString.DumpsIsAscii | worker/celery_worker.py:60 | the stored summary text is printable ASCII whatever the summary holds (ensure_ascii) |
| CeleryWorker.StatusRecord | worker/celery_worker.py:57-62 | update_status writes exactly status, summaryResult and errorMessage, with the given status |
| CeleryWorker.TerminalRecord | worker/celery_worker.py:112-119 | COMPLETED holds an empty error and a summary that decodes to the text; FAILED holds an empty summary and the exception text |
| CeleryWorker.CompletesIffAllStepsReturn | worker/celery_worker.py:112-119 | a task completes if and only if download, model load (when not cached), transcription and summarisation all return and the transcription is not empty; it then completes with the summariser's text |
| CeleryWorker.RunWrites | worker/celery_worker.py:107-119 | PROCESSING is written before the download, and every write is a full three-field record under the job id as passed |
| CeleryWorker.RunEndsTerminal | worker/celery_worker.py:112-119 | the last event is the COMPLETED or FAILED write of the task's outcome |
| CeleryWorker.NeverSummarizesEmpty | worker/celery_worker.py:79-84 | the summariser is never asked about an empty transcription; an empty one ends with the same FAILED record written twice |
| CeleryWorker.FinalRecord | worker/celery_worker.py:106-119 | after a task the record is the old hash with the terminal record over it |
| CeleryWorker.RerunOverwrites | worker/celery_worker.py:106-119 | running a job twice leaves only the second run's outcome in the record |
| CeleryWorker.OnlyJobKeyWritten | worker/celery_worker.py:57-62 | a task changes no key other than its job id |
| CeleryWorker.Worker.GetWhisperModel | worker/celery_worker.py:40-45 | the model is loaded on first use only; afterwards the cached model is returned and nothing is loaded |
| CeleryWorker.Worker.UpdateStatus | worker/celery_worker.py:57-62 | the store after the call is the HSET of the status record under the job id |
| CeleryWorker.Worker.DownloadFile | worker/celery_worker.py:65-75 | returns the fetched path or re-raises the fetch error |
| CeleryWorker.Worker.RunWhisper | worker/celery_worker.py:47-55 | returns the transcription or re-raises the load or transcription error; loads the model only when none is cached |
| CeleryWorker.Worker.Summarize | worker/celery_worker.py:79-104 | an empty transcription records FAILED and raises with the same text; otherwise returns or raises what the summariser does |
| CeleryWorker.Worker.ProcessTask | worker/celery_worker.py:106-119 | the task's events and the store afterwards are exactly those of Run; the model cache is filled by the first successful load |
| PyText.LStripSuffix | worker/main.py:129 | lstrip leaves a suffix that does not start with whitespace, and drops only whitespace |
| PyText.RStripPrefix | worker/main.py:129 | rstrip leaves a prefix that does not end with whitespace, and drops only whitespace |
| PyText.StripBounds | worker/main.py:129 | strip keeps exactly the part between the leading and trailing whitespace |
| PikaWorker.StripFence | worker/main.py:129-130 | the stored summary is never longer than the reply, and differs from it only for a fenced reply, being then empty or the reply without its first eight and last three characters |
| PikaWorker.FencedIff | worker/main.py:129 | the fence test holds if and only if the reply starts with ```json then whitespace or nothing, or with one whitespace character then ```json |
| PikaWorker.StripFenceResult | worker/main.py:129-130 | a fenced reply loses its first eight and last three characters (everything when shorter than eleven); any other reply is kept verbatim |
| PikaWorker.FenceRoundTrip | worker/main.py:129-130 | a reply of ```json, a newline, the JSON, then ``` is stored as exactly the JSON |
| PikaWorker.JobKeySeparatesIds | worker/main.py:116 | messages with string job ids write the same record if and only if their ids are equal |
| PikaWorker.MissingJobIdShared | worker/main.py:115-116 | a message without a jobId, one with a null jobId and one with the id "None" all write the record "job:None" |
| PikaWorker.ProcessingFirst | worker/main.py:113-121 | PROCESSING is the first write, before Whisper is loaded, and every write goes to the job key |
| PikaWorker.FailsWithoutTranscription | worker/main.py:137-141 | with no transcription, or an empty one, Gemini is never asked and the last write is FAILED with "Transcription failed" |
| PikaWorker.SummarizesTranscription | worker/main.py:124-134 | with a transcription Gemini is asked, and every request it gets is about that transcription; the task crashes if and only if the request is its last event |
| PikaWorker.FinalRecord | worker/main.py:117-141 | FAILED keeps the old summaryResult, COMPLETED keeps the old errorMessage, and a Gemini crash leaves the record PROCESSING over the old fields |
| PikaWorker.FinalWrite | worker/main.py:131-141 | the last write always sets status and names only status, summaryResult and errorMessage |
| PikaWorker.FinalOverlay | worker/main.py:113-142 | the record after a task is the old record with the last write over it |
| PikaWorker.OnlyJobKeyWritten | worker/main.py:116-141 | a task changes no key other than its own record |
| PikaWorker.Worker.RunWhisper | worker/main.py:103-111 | returns the transcription, or None when loading or transcribing raised |
| PikaWorker.Worker.ProcessTask | worker/main.py:113-142 | the task's events and the store afterwards are exactly those of Run; it ends by crashing exactly when Gemini raised after a transcription |
| PikaWorker.Reaction | worker/main.py:144-162 | a delivery gets one or two actions, the last of which acks or nacks it with its own tag |
| PikaWorker.ReactionSettlesOnce | worker/main.py:144-162 | each delivery is settled exactly once, by its last action, never requeued; a process is spawned if and only if the body is an object with a truthy filePath and the process starts, and then before the ack |
| PikaWorker.EachDeliverySettled | worker/main.py:144-162 | over any run of deliveries the consumer settles each exactly once and spawns at most one process per delivery |
| PikaWorker.Consumer.OnMessage | worker/main.py:144-162 | the consumer's actions grow by exactly the delivery's reaction |
| PikaWorker.ConnectRedis | worker/main.py:168-191 | ten tries three seconds apart, only ConnectionError retried; sys.exit(1) is called exactly when every try failed with a retried error, and any other error ends the process uncaught |
| PikaWorker.ConnectRabbit | worker/main.py:198-220 | ten tries three seconds apart, every exception retried, so the loop never escapes; sys.exit(1) is called exactly when every try failed |
| PikaWorker.Startup | worker/main.py:165-220 | the RabbitMQ loop runs only after Redis connected, after a three-second pause; start-up makes at most twenty tries; sys.exit(1) is called exactly when a loop used up its tries, and an error the Redis loop does not retry ends the process uncaught |
| JobService.JobKeyInjective | visum/src/main/java/com/video_summarizer/visum/service/JobServiceImpl.java:31 | distinct jobs have distinct keys, and no job's key is its bare id |
| JobService.ReadAfterSave | visum/src/main/java/com/video_summarizer/visum/service/JobServiceImpl.java:25-32 | reading after a save gives the old fields with every saved entry over them |
| JobService.EmptyIffNeverSaved | visum/src/main/java/com/video_summarizer/visum/service/JobServiceImpl.java:29-32 | the result is empty if and only if nothing was saved under the job's key; a save of a non-empty map makes it non-empty |
| JobService.SaveIsolated | visum/src/main/java/com/video_summarizer/visum/service/JobServiceImpl.java:25-32 | a save under one job's key leaves every other job's result unchanged |
| JobService.JobServiceImpl.SaveData | visum/src/main/java/com/video_summarizer/visum/service/JobServiceImpl.java:19-27 | five tries three seconds apart, only a connection failure retried; the store holds the merge exactly when a try succeeded, and is unchanged otherwise |
| JobService.JobServiceImpl.GetJobResult | visum/src/main/java/com/video_summarizer/visum/service/JobServiceImpl.java:29-32 | returns the hash under "job:" + jobId, empty when there is none |
| SummaryService.TempFilePath | visum/src/main/java/com/video_summarizer/visum/service/SummaryServiceImpl.java:27-29 | the path is the temporary directory, a "/" unless the directory already ends with one, then the file name |
| SummaryService.TempFilesDistinct | visum/src/main/java/com/video_summarizer/visum/service/SummaryServiceImpl.java:27-29 | uploads given different UUIDs of one length never share a temporary file, whatever their original names |
| SummaryService.NullNameClash | visum/src/main/java/com/video_summarizer/visum/service/SummaryServiceImpl.java:28 | an upload without an original name and one named "null" get the same temporary file name |
| SummaryService.Decimal | visum/src/main/java/com/video_summarizer/visum/service/SummaryServiceImpl.java:42 | createdAt is a non-empty string of decimal digits |
| SummaryService.DecimalRoundTrip | visum/src/main/java/com/video_summarizer/visum/service/SummaryServiceImpl.java:42 | createdAt read back as a number is the clock reading, and it has no leading zero |
| SummaryService.RecordShape | visum/src/main/java/com/video_summarizer/visum/service/SummaryServiceImpl.java:37-43 | the job record has exactly six fields: PENDING, the id, the path, the creation time, and empty error and summary |
| SummaryService.ResponseMatchesRecord | visum/src/main/java/com/video_summarizer/visum/service/SummaryServiceImpl.java:59-62 | the answer holds exactly the saved record's jobId and status |
| SummaryService.Broker.ConvertAndSend | visum/src/main/java/com/video_summarizer/visum/service/SummaryServiceImpl.java:50-54 | a successful publish appends the job map; a failed one appends nothing |
| SummaryService.SummaryServiceImpl.SendSummaryRequest | visum/src/main/java/com/video_summarizer/visum/service/SummaryServiceImpl.java:26-63 | a failed transfer raises before anything is saved; a failed save raises with nothing published; otherwise the PENDING record is saved under "job:" + jobId, then published, and the answer is the id and PENDING unless the publish raised |
| Lifecycle.DeliveredMatchesStored | worker/main.py:146 | the pika worker is handed the fields the backend stored with the same strings; a null it receives as None is stored as an empty value |
| Lifecycle.PikaUsesBackendKey | worker/main.py:115-116 | the pika worker writes under the key the backend saved and polls, and transcribes the file the backend wrote |
| Lifecycle.AfterPikaOverlay | worker/main.py:113-142 | after the backend's save and one pika task, the poll shows the PENDING record with the task's last write over it |
| Lifecycle.PendingFields | visum/src/main/java/com/video_summarizer/visum/service/SummaryServiceImpl.java:37-49 | the record right after the save holds the six fields with PENDING and empty error and summary |
| Lifecycle.PikaKeepsBackendFields | worker/main.py:117-141 | a pika task keeps the jobId, filePath and createdAt the backend stored |
| Lifecycle.PikaFailedRecord | worker/main.py:137-141 | without a transcription the poll shows FAILED, "Transcription failed" and the empty summary the backend stored |
| Lifecycle.PikaCompletedRecord | worker/main.py:131-134 | a summarised job shows COMPLETED, the fence-stripped reply and the empty error the backend stored |
| Lifecycle.PikaCrashLeavesProcessing | worker/main.py:117-127 | when Gemini raises, the poll shows PROCESSING for ever |
| Lifecycle.CeleryInvisibleToBackend | worker/redis_client.py:25-32 | the Celery worker writes in database 2, so whatever key it is given the backend's poll in database 0 shows what it showed before |
| Lifecycle.CeleryKeyNotPolled | worker/celery_worker.py:57-62 | even in the backend's database, the Celery worker given the bare job id never writes the record the poll reads |

## Left out

- Logging, the prompt text, and the model names passed to Whisper and Gemini are left out. They do not affect the record.
- Each opaque step is a parameter that returns a value or raises: the S3 download, Whisper, Gemini, `transferTo`, `convertAndSend`, the Redis ping and the RabbitMQ connection. The sleeps appear only as steps carrying their duration.
- The temporary file itself and its `.mp3` suffix are left out. So are `File.getAbsolutePath` normalisation and the Windows separator; the temporary directory is taken as an absolute directory with `/` separators.
- Concurrency between worker processes, Celery's task dispatch, and `multiprocessing` process semantics are left out. A task runs as one sequence of events.
- The RedisTemplate JDK serializer is left out: keys and values are the strings themselves.
- A Java `null` value saved by `putAll` is stored as an empty value rather than modelled through the serializer's encoding of it.
- The Jackson JSON text of the published job is left out; the broker records the map. `Lifecycle.Delivered` takes as given that `json.loads` of that text gives back the map's strings, with `null` as None; the round trip through the text is not proved. `JsonProcessingException` cannot occur for a map of strings, so that path is not modelled.
- Redis failures during the workers' `hset` calls are left out, and so is a failing `basic_ack` after a process was spawned.
- `RedisClient.ConnectionSettings` leaves out the port: `REDIS_PORT` defaults to 6379, and `int()` raises at import time on a value that is not a number.
- `JobService.JobServiceImpl.SaveData` models `@Retryable` as active. Spring applies it only when some configuration class carries `@EnableRetry`, and none of the backend classes in this model carries it; without it `saveData` makes a single try.
- `main.py`'s own environment handling is left out: `int(REDIS_PORT)` failing on a missing port, and the Redis username read from the variable `username`. So are the exchange, queue, binding, QoS and consume set-up and the consumer's shutdown.
- `genai.GenerativeModel` construction raising is left out; only `generate_content` raising is modelled.
- JSON values other than strings, null and booleans are opaque to `PyJson`: only their `str()` text and their truthiness are kept.
