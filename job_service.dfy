/** The backend's access to the status store: `saveData` merges a map of
    strings into the hash at a key, retried on connection failures, and
    `getJobResult` reads the hash at `"job:" + jobId`. */
module JobService {
  import opened Outcomes
  import opened Store
  import Retry

  /** `@Retryable(retryFor = RedisConnectionFailureException, maxAttempts = 5,
      backoff = @Backoff(delay = 3000))`, taken as active: Spring honours it
      only where retry is enabled with `@EnableRetry`. */
  const SaveAttempts: nat := 5
  const SaveDelayMillis: nat := 3000

  /** A map handed to `saveData`: Java values, `null` included. */
  type JavaMap = map<string, Option<string>>

  /** The connection factory never selects a database, so the backend reads
      and writes Redis database 0. */
  const Database: nat := 0

  /** The key of a job's record. */
  function JobKey(jobId: string): string
  {
    "job:" + jobId
  }

  /** Distinct jobs have distinct keys, and no job's key is its bare id. */
  lemma JobKeyInjective(a: string, b: string)
    ensures JobKey(a) == JobKey(b) <==> a == b
    ensures JobKey(a) != a
  {
    if JobKey(a) == JobKey(b) {
      assert a == JobKey(a)[4..] && b == JobKey(b)[4..];
    }
    assert |JobKey(a)| == |a| + 4;
  }

  /** The hash Redis holds once `data` is written: a `null` value is stored as
      an empty value. */
  function Stored(data: JavaMap): Hash
  {
    map f | f in data :: if data[f].Some? then data[f].value else ""
  }

  /** What `getJobResult(jobId)` returns from the store `db`. */
  function JobResult(db: Db, jobId: string): Hash
  {
    Entries(db, JobKey(jobId))
  }

  /** Reading back a record after saving it under its job key gives every
      saved entry, over whatever fields the record had before. */
  lemma ReadAfterSave(db: Db, jobId: string, data: JavaMap)
    ensures JobResult(Put(db, JobKey(jobId), Stored(data)), jobId) == JobResult(db, jobId) + Stored(data)
    ensures forall f :: f in data ==> f in JobResult(Put(db, JobKey(jobId), Stored(data)), jobId)
  {
    EntriesPut(db, JobKey(jobId), Stored(data));
  }

  /** In a store that never holds an empty hash the result is empty exactly
      when nothing was ever saved under the job's key (the controller's 404),
      and a save of a non-empty map makes it non-empty. */
  lemma EmptyIffNeverSaved(db: Db, jobId: string, data: JavaMap)
    requires NoEmptyHash(db)
    ensures JobResult(db, jobId) == map[] <==> JobKey(jobId) !in db
    ensures data != map[] ==> JobResult(Put(db, JobKey(jobId), Stored(data)), jobId) != map[]
  {
    if data != map[] {
      var f :| f in data;
      assert f in Stored(data);
      ReadAfterSave(db, jobId, data);
    }
  }

  /** A save under one job's key leaves every other job's result as it was. */
  lemma SaveIsolated(db: Db, jobId: string, other: string, data: JavaMap)
    requires other != jobId
    ensures JobResult(Put(db, JobKey(jobId), Stored(data)), other) == JobResult(db, other)
  {
    JobKeyInjective(jobId, other);
  }

  class JobServiceImpl {
    const redis: Redis

    constructor (redis: Redis)
      ensures this.redis == redis
    {
      this.redis := redis;
    }

    /** `saveData(key, data)`: `attempt(k)` is what `putAll` does on try k,
        either writing or failing without a write. A
        `RedisConnectionFailureException` is retried up to five tries, three
        seconds apart; any other exception, or the fifth connection failure,
        reaches the caller. */
    method SaveData(key: string, data: JavaMap, attempt: nat -> Retry.Attempt<()>)
      returns (res: Retry.Supervised<()>, steps: seq<Retry.Step>, outcome: Outcome<()>)
      modifies redis
      ensures Retry.Describes(res, steps, attempt, SaveAttempts, SaveDelayMillis, false)
      ensures outcome.Returns? <==> res.Live?
      ensures redis.db == if res.Live? then Put(old(redis.db), key, Stored(data)) else old(redis.db)
    {
      res, steps := Retry.Supervise(attempt, SaveAttempts, SaveDelayMillis, false);
      match res
      case Live(_, _) =>
        redis.HSet(key, Stored(data));
        outcome := Returns(());
      case Exhausted(last) =>
        outcome := Raises(last.message);
      case Escaped(error, _) =>
        outcome := Raises(error.message);
    }

    /** `getJobResult(jobId)`. */
    method GetJobResult(jobId: string) returns (result: Hash)
      ensures result == JobResult(redis.db, jobId)
    {
      result := if JobKey(jobId) in redis.db then redis.db[JobKey(jobId)] else map[];
    }
  }
}
