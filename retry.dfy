/** The bounded connect-and-retry discipline used for every external
    connection: at most `maxAttempts` tries, a fixed delay only between
    failed tries, a retry only for the failures the caller names, and a
    verdict once the tries run out. */
module Retry {

  /** A failed try: the connection-failure exception the caller retries on
      (redis-py's `ConnectionError`, Spring's `RedisConnectionFailureException`)
      or any other exception. */
  datatype Failure = ConnectionFailure(message: string) | OtherFailure(message: string)

  /** The result of try number k, as the connect operation gives it. */
  datatype Attempt<+T> = Connected(conn: T) | Failed(error: Failure)

  datatype Step = Try(attempt: nat) | Sleep(millis: nat)

  /** Connected on try `attempts`; every permitted try failed with a retried
      error; or a try failed with an error that is not retried. */
  datatype Supervised<+T> = Live(conn: T, attempts: nat) | Exhausted(last: Failure) | Escaped(error: Failure, attempt: nat)

  predicate Retried(f: Failure, retryAny: bool)
  {
    retryAny || f.ConnectionFailure?
  }

  /** Tries 1..k with a sleep of `delay` between consecutive tries. */
  function Schedule(k: nat, delay: nat): seq<Step>
    decreases k
  {
    if k == 0 then []
    else if k == 1 then [Try(1)]
    else Schedule(k - 1, delay) + [Sleep(delay), Try(k)]
  }

  function Tries(steps: seq<Step>): nat
  {
    if steps == [] then 0 else (if steps[0].Try? then 1 else 0) + Tries(steps[1..])
  }

  function Sleeps(steps: seq<Step>): nat
  {
    if steps == [] then 0 else (if steps[0].Sleep? then 1 else 0) + Sleeps(steps[1..])
  }

  lemma {:induction false} CountConcat(a: seq<Step>, b: seq<Step>)
    ensures Tries(a + b) == Tries(a) + Tries(b)
    ensures Sleeps(a + b) == Sleeps(a) + Sleeps(b)
  {
    if a != [] {
      assert (a + b)[1..] == a[1..] + b;
      CountConcat(a[1..], b);
    } else {
      assert a + b == b;
    }
  }

  /** k tries means k tries made and k - 1 sleeps taken. */
  lemma {:induction false} ScheduleCounts(k: nat, delay: nat)
    requires k >= 1
    ensures Tries(Schedule(k, delay)) == k && Sleeps(Schedule(k, delay)) == k - 1
  {
    if k > 1 {
      ScheduleCounts(k - 1, delay);
      var tail := [Sleep(delay), Try(k)];
      CountConcat(Schedule(k - 1, delay), tail);
      assert tail[1..] == [Try(k)] && tail[1..][1..] == [];
      assert Tries([Try(k)]) == 1 && Sleeps([Try(k)]) == 0;
      assert Tries(tail) == 1 && Sleeps(tail) == 1;
    }
  }

  /** Everything the source promises about one run of the loop: which verdict,
      on which try, after which steps. */
  ghost predicate Describes<T>(res: Supervised<T>, steps: seq<Step>, connect: nat -> Attempt<T>,
                               maxAttempts: nat, delay: nat, retryAny: bool)
  {
    match res
    case Live(conn, k) =>
      1 <= k <= maxAttempts && connect(k) == Connected(conn) && steps == Schedule(k, delay) &&
      forall j :: 1 <= j < k ==> connect(j).Failed? && Retried(connect(j).error, retryAny)
    case Exhausted(last) =>
      maxAttempts >= 1 && connect(maxAttempts) == Failed(last) && steps == Schedule(maxAttempts, delay) &&
      forall j :: 1 <= j <= maxAttempts ==> connect(j).Failed? && Retried(connect(j).error, retryAny)
    case Escaped(error, k) =>
      1 <= k <= maxAttempts && connect(k) == Failed(error) && !Retried(error, retryAny) &&
      steps == Schedule(k, delay) &&
      forall j :: 1 <= j < k ==> connect(j).Failed? && Retried(connect(j).error, retryAny)
  }

  /** `for attempt in range(1, maxAttempts + 1): try … break / except …: sleep or give up`. */
  method Supervise<T>(connect: nat -> Attempt<T>, maxAttempts: nat, delay: nat, retryAny: bool)
    returns (res: Supervised<T>, steps: seq<Step>)
    requires maxAttempts >= 1
    ensures Describes(res, steps, connect, maxAttempts, delay, retryAny)
  {
    steps := [];
    for attempt := 1 to maxAttempts + 1
      invariant attempt == 1 ==> steps == []
      invariant 1 < attempt <= maxAttempts ==> steps == Schedule(attempt - 1, delay) + [Sleep(delay)]
      invariant attempt == maxAttempts + 1 ==> steps == Schedule(maxAttempts, delay)
      invariant forall j :: 1 <= j < attempt ==> connect(j).Failed? && Retried(connect(j).error, retryAny)
    {
      steps := steps + [Try(attempt)];
      assert steps == Schedule(attempt, delay);
      var a := connect(attempt);
      if a.Connected? {
        return Live(a.conn, attempt), steps;
      }
      if !Retried(a.error, retryAny) {
        return Escaped(a.error, attempt), steps;
      }
      if attempt < maxAttempts {
        steps := steps + [Sleep(delay)];
      }
    }
    // The last try failed with a retried error too: the loop gives up.
    res := Exhausted(connect(maxAttempts).error);
  }

  /** Whatever the connect operation does, the loop tries at most
      `maxAttempts` times and sleeps once fewer than it tries. */
  lemma AtMostMaxAttempts<T>(res: Supervised<T>, steps: seq<Step>, connect: nat -> Attempt<T>,
                             maxAttempts: nat, delay: nat, retryAny: bool)
    requires Describes(res, steps, connect, maxAttempts, delay, retryAny)
    ensures 1 <= Tries(steps) <= maxAttempts && Sleeps(steps) == Tries(steps) - 1
  {
    match res
    case Live(_, k) => ScheduleCounts(k, delay);
    case Exhausted(_) => ScheduleCounts(maxAttempts, delay);
    case Escaped(_, k) => ScheduleCounts(k, delay);
  }

  /** A connection that fails with retried errors on the first k tries and then
      succeeds, with k < maxAttempts, is live after exactly k + 1 tries. */
  lemma SucceedsAfterFailures<T>(res: Supervised<T>, steps: seq<Step>, connect: nat -> Attempt<T>,
                                 maxAttempts: nat, delay: nat, retryAny: bool, k: nat)
    requires Describes(res, steps, connect, maxAttempts, delay, retryAny)
    requires k < maxAttempts && connect(k + 1).Connected?
    requires forall j :: 1 <= j <= k ==> connect(j).Failed? && Retried(connect(j).error, retryAny)
    ensures res == Live(connect(k + 1).conn, k + 1) && Tries(steps) == k + 1
  {
    ScheduleCounts(k + 1, delay);
  }

  /** A connection that always fails with retried errors exhausts every try. */
  lemma AlwaysFailingExhausts<T>(res: Supervised<T>, steps: seq<Step>, connect: nat -> Attempt<T>,
                                 maxAttempts: nat, delay: nat, retryAny: bool)
    requires Describes(res, steps, connect, maxAttempts, delay, retryAny)
    requires forall j :: 1 <= j <= maxAttempts ==> connect(j).Failed? && Retried(connect(j).error, retryAny)
    ensures res.Exhausted? && Tries(steps) == maxAttempts && Sleeps(steps) == maxAttempts - 1
  {
    ScheduleCounts(maxAttempts, delay);
  }
}
