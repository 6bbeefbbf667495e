/** The Redis hash store through which a job's status record travels: the
    backend writes it with `opsForHash().putAll` and reads it with
    `opsForHash().entries`; the workers write it with redis-py's
    `hset(key, mapping=…)`. Keys and values are plain strings. */
module Store {

  type Hash = map<string, string>
  type Db = map<string, Hash>

  /** Redis never keeps a key whose hash has no fields. */
  ghost predicate NoEmptyHash(db: Db)
  {
    forall k :: k in db ==> db[k] != map[]
  }

  /** HGETALL: the hash stored under `key`, empty when nothing is stored there. */
  function Entries(db: Db, key: string): Hash
  {
    if key in db then db[key] else map[]
  }

  /** HSET with a mapping: the named fields are overwritten, every other field
      of that hash and every other key keep their values. An empty mapping
      changes nothing. */
  function Put(db: Db, key: string, fields: Hash): (r: Db)
    ensures forall f :: f in fields ==> f in Entries(r, key) && Entries(r, key)[f] == fields[f]
    ensures forall f :: f !in fields && f in Entries(db, key) ==>
              f in Entries(r, key) && Entries(r, key)[f] == Entries(db, key)[f]
    ensures Entries(r, key).Keys == Entries(db, key).Keys + fields.Keys
    ensures forall k :: k != key ==> Entries(r, k) == Entries(db, k)
    ensures NoEmptyHash(db) ==> NoEmptyHash(r)
  {
    if fields == map[] then db else db[key := Entries(db, key) + fields]
  }

  /** What a process does, in order: a write to the store or a call of one of
      its collaborators (whose type `C` each process defines). */
  datatype Event<+C> = Wrote(key: string, fields: Hash) | Called(call: C)

  /** The store after the writes of `trace`, applied in order. */
  function Apply<C>(db: Db, trace: seq<Event<C>>): Db
    decreases |trace|
  {
    if trace == [] then db
    else
      var before := Apply(db, trace[..|trace| - 1]);
      var last := trace[|trace| - 1];
      if last.Wrote? then Put(before, last.key, last.fields) else before
  }

  /** The fields `trace` writes under `key`, later writes winning. */
  function Written<C>(trace: seq<Event<C>>, key: string): Hash
    decreases |trace|
  {
    if trace == [] then map[]
    else
      var last := trace[|trace| - 1];
      Written(trace[..|trace| - 1], key) + (if last.Wrote? && last.key == key then last.fields else map[])
  }

  lemma {:induction false} ApplyConcat<C>(db: Db, a: seq<Event<C>>, b: seq<Event<C>>)
    ensures Apply(db, a + b) == Apply(Apply(db, a), b)
    decreases |b|
  {
    if b == [] {
      assert a + b == a;
    } else {
      assert (a + b)[..|a + b| - 1] == a + b[..|b| - 1];
      ApplyConcat(db, a, b[..|b| - 1]);
    }
  }

  /** Replaying writes on a key overlays, on the hash that was there, exactly
      the fields written to that key. */
  lemma {:induction false} ApplyOverlays<C>(db: Db, trace: seq<Event<C>>, key: string)
    ensures Entries(Apply(db, trace), key) == Entries(db, key) + Written(trace, key)
    decreases |trace|
  {
    if trace != [] {
      var prefix, last := trace[..|trace| - 1], trace[|trace| - 1];
      ApplyOverlays(db, prefix, key);
      if last.Wrote? && last.key == key {
        EntriesPut(Apply(db, prefix), key, last.fields);
        MergeAssoc(Entries(db, key), Written(prefix, key), last.fields);
      } else {
        assert Written(trace, key) == Written(prefix, key) + map[];
      }
    }
  }

  /** A key that no write of `trace` names keeps its hash. */
  lemma {:induction false} ApplyElsewhere<C>(db: Db, trace: seq<Event<C>>, key: string)
    requires forall i :: 0 <= i < |trace| && trace[i].Wrote? ==> trace[i].key != key
    ensures Entries(Apply(db, trace), key) == Entries(db, key)
    decreases |trace|
  {
    if trace != [] {
      ApplyElsewhere(db, trace[..|trace| - 1], key);
    }
  }

  /** The fields written to `key` are among those the writes name. */
  lemma {:induction false} WrittenWithin<C>(trace: seq<Event<C>>, key: string, names: set<string>)
    requires forall i :: 0 <= i < |trace| && trace[i].Wrote? && trace[i].key == key ==> trace[i].fields.Keys <= names
    ensures Written(trace, key).Keys <= names
    decreases |trace|
  {
    if trace != [] {
      WrittenWithin(trace[..|trace| - 1], key, names);
    }
  }

  /** When the last event writes every field any earlier write to `key`
      names, the record under `key` ends as that write's fields laid over
      what the store held before: each write fully replaces the previous one. */
  lemma LastWriteWins<C>(db: Db, trace: seq<Event<C>>, key: string, names: set<string>)
    requires trace != [] && trace[|trace| - 1].Wrote? && trace[|trace| - 1].key == key
    requires trace[|trace| - 1].fields.Keys == names
    requires forall i :: 0 <= i < |trace| && trace[i].Wrote? && trace[i].key == key ==> trace[i].fields.Keys <= names
    ensures Entries(Apply(db, trace), key) == Entries(db, key) + trace[|trace| - 1].fields
  {
    var prefix := trace[..|trace| - 1];
    var last := trace[|trace| - 1].fields;
    WrittenWithin(prefix, key, names);
    ApplyOverlays(db, trace, key);
    assert Written(trace, key) == Written(prefix, key) + last;
    assert Written(prefix, key) + last == last;
  }

  lemma ApplyWrite<C>(db: Db, key: string, fields: Hash)
    ensures Apply(db, [Event<C>.Wrote(key, fields)]) == Put(db, key, fields)
  {
    assert [Event<C>.Wrote(key, fields)][..0] == [];
  }

  /** Calls before a stretch of events do not change what it leaves. */
  lemma CallsThen<C>(db: Db, calls: seq<Event<C>>, rest: seq<Event<C>>)
    requires forall i :: 0 <= i < |calls| ==> calls[i].Called?
    ensures Apply(db, calls + rest) == Apply(db, rest)
  {
    ApplyConcat(db, calls, rest);
    ApplyCalls(db, calls);
  }

  /** Calls of collaborators leave the store as it is. */
  lemma {:induction false} ApplyCalls<C>(db: Db, trace: seq<Event<C>>)
    requires forall i :: 0 <= i < |trace| ==> trace[i].Called?
    ensures Apply(db, trace) == db
    decreases |trace|
  {
    if trace != [] {
      ApplyCalls(db, trace[..|trace| - 1]);
    }
  }

  lemma EntriesPut(db: Db, key: string, fields: Hash)
    ensures Entries(Put(db, key, fields), key) == Entries(db, key) + fields
  {
  }

  lemma MergeAssoc(a: Hash, b: Hash, c: Hash)
    ensures a + b + c == a + (b + c)
  {
  }

  /** A later write naming every field of an earlier one hides it entirely. */
  lemma Overwrite(h: Hash, first: Hash, second: Hash)
    requires first.Keys <= second.Keys
    ensures h + first + second == h + second
  {
  }

  lemma AppendAssoc<T>(a: seq<T>, b: seq<T>, c: seq<T>)
    ensures (a + b) + c == a + (b + c)
  {
  }

  /** A Redis server: numbered logical databases, each a keyspace of its own.
      A client works in the one database it selected when it connected. */
  type Server = map<nat, Db>

  /** Database `n` of the server; one never written is empty. */
  function Database(server: Server, n: nat): Db
  {
    if n in server then server[n] else map[]
  }

  /** The server after a client connected to database `n` performs `trace`:
      that database takes the writes and every other database is left as it
      was. */
  function ApplyOn<C>(server: Server, n: nat, trace: seq<Event<C>>): (r: Server)
    ensures Database(r, n) == Apply(Database(server, n), trace)
    ensures forall m :: m != n ==> Database(r, m) == Database(server, m)
  {
    server[n := Apply(Database(server, n), trace)]
  }

  /** The store as the Redis server holds it. */
  class Redis {
    var db: Db

    constructor (initial: Db)
      ensures db == initial
    {
      db := initial;
    }

    /** `HSET key mapping` / `putAll(key, mapping)`. */
    method HSet(key: string, fields: Hash)
      modifies this
      ensures db == Put(old(db), key, fields)
    {
      db := Put(db, key, fields);
    }
  }
}
