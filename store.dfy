/** The Redis server the services talk to, reduced to the commands the core
    issues: GET/SET EX, LPUSH/LTRIM/LRANGE, HSET, XADD and the search
    module's FT._LIST, FT.DROPINDEX, FT.CREATE and FT.SEARCH. One keyspace
    holds strings, lists, hashes and streams, so a command on a key of the
    wrong kind fails with WRONGTYPE; search indexes live beside the keyspace,
    so dropping an index (without DD) leaves its hashes in place.

    Every round trip may be lost: the server carries a fault oracle that says,
    for the n-th round trip, whether it fails. A reliable server never fails,
    an unreachable one always does. */
module Store {
  import opened Common

  /** A StackExchange.Redis RedisValue as the core hands it over. */
  datatype RedisValue = Null | Text(s: string) | Blob(bytes: seq<bv8>)

  /** A HashEntry or a NameValueEntry. */
  datatype NameValue = NameValue(name: string, value: RedisValue)

  datatype Entry =
    | Str(value: string, ttlSeconds: int)
    | List(items: seq<string>)
    | Hash(fields: map<string, RedisValue>)
    | Stream(entries: seq<seq<NameValue>>)

  type Keyspace = map<string, Entry>

  datatype FieldSpec =
    | TextField(name: string, sortable: bool)
    | VectorField(name: string, algorithm: string, elementType: string, dim: nat, metric: string)

  /** FT.CREATE name ON <on> PREFIX <prefixes> SCHEMA <schema> */
  datatype IndexDef = IndexDef(on: string, prefixes: seq<string>, schema: seq<FieldSpec>)

  /** A reply as StackExchange.Redis hands it back from ExecuteAsync. */
  datatype RedisResult = Integer(i: int) | BulkString(s: string) | Nil | Array(items: seq<RedisResult>)

  /** Whether a hash field holds a vector an index field of `dim` float32s
      can take: a blob of four bytes per float. */
  predicate VectorFits(v: RedisValue, dim: nat)
  {
    v.Blob? && |v.bytes| == 4 * dim
  }

  /** Whether an index over hashes picks the key up: it holds a hash, its
      name starts with one of the index's prefixes, and every vector field of
      the schema that the hash sets has the declared width (a hash whose
      vector has another width fails to index). */
  predicate Covers(def: IndexDef, ks: Keyspace, key: string)
  {
    && def.on == "HASH" && key in ks && ks[key].Hash?
    && (exists i :: 0 <= i < |def.prefixes| && def.prefixes[i] <= key)
    && forall j :: 0 <= j < |def.schema| && def.schema[j].VectorField? && def.schema[j].name in ks[key].fields ==>
         VectorFits(ks[key].fields[def.schema[j].name], def.schema[j].dim)
  }

  /** Whether a KNN query on `field` of the index can take the query blob:
      the field is a vector field of the schema and the blob has its width. */
  predicate QueryFits(def: IndexDef, field: string, blob: seq<bv8>)
  {
    exists j :: 0 <= j < |def.schema| && def.schema[j].VectorField? && def.schema[j].name == field &&
                |blob| == 4 * def.schema[j].dim
  }

  /** The list stored at key, empty when the key is absent or of another kind. */
  function ListAt(ks: Keyspace, key: string): seq<string>
  {
    if key in ks && ks[key].List? then ks[key].items else []
  }

  function HashAt(ks: Keyspace, key: string): map<string, RedisValue>
  {
    if key in ks && ks[key].Hash? then ks[key].fields else map[]
  }

  function StreamAt(ks: Keyspace, key: string): seq<seq<NameValue>>
  {
    if key in ks && ks[key].Stream? then ks[key].entries else []
  }

  /** Whether a command for one kind of value may touch the key: it is absent or of that kind. */
  predicate ListOrAbsent(ks: Keyspace, key: string) { key !in ks || ks[key].List? }
  predicate HashOrAbsent(ks: Keyspace, key: string) { key !in ks || ks[key].Hash? }
  predicate StreamOrAbsent(ks: Keyspace, key: string) { key !in ks || ks[key].Stream? }

  /** The elements LRANGE key start stop returns (and LTRIM keeps): negative
      indices count from the end, out-of-range ends are clamped, an empty
      range is empty. */
  function Range<T>(xs: seq<T>, start: int, stop: int): (r: seq<T>)
    ensures |r| <= |xs|
  {
    var n := |xs|;
    var s := if start >= 0 then start else if n + start >= 0 then n + start else 0;
    var e := if stop < 0 then n + stop else if stop >= n then n - 1 else stop;
    if s > e || s >= n then [] else xs[s..e + 1]
  }

  /** LRANGE key 0 -1 is the whole list. */
  lemma RangeAll<T>(xs: seq<T>)
    ensures Range(xs, 0, -1) == xs
  {
    if |xs| > 0 {
      assert xs[0..|xs|] == xs;
    }
  }

  /** LTRIM key 0 (n-1) keeps the first n elements. */
  lemma RangeFirst<T>(xs: seq<T>, n: nat)
    requires n >= 1
    ensures Range(xs, 0, n - 1) == xs[..if n < |xs| then n else |xs|]
  {
  }

  /** HSET: fields are set left to right, so a later duplicate wins; other
      fields of the hash are kept. */
  function SetFields(m: map<string, RedisValue>, fields: seq<NameValue>): (r: map<string, RedisValue>)
    ensures forall k :: k in m ==> k in r
    ensures forall i :: 0 <= i < |fields| ==> fields[i].name in r
    decreases |fields|
  {
    if fields == [] then m else SetFields(m[fields[0].name := fields[0].value], fields[1..])
  }

  /** The connection handle (IDatabase) a client holds on to. */
  class Database {
    const server: RedisServer

    constructor (server: RedisServer)
      ensures this.server == server
    {
      this.server := server;
    }
  }

  class RedisServer {
    const fault: nat -> bool        // whether the n-th round trip is lost
    var trips: nat                  // round trips made so far
    var keyspace: Keyspace
    var indexes: map<string, IndexDef>

    constructor (fault: nat -> bool, keyspace: Keyspace, indexes: map<string, IndexDef>)
      ensures this.fault == fault && trips == 0
      ensures this.keyspace == keyspace && this.indexes == indexes
    {
      this.fault := fault;
      trips := 0;
      this.keyspace := keyspace;
      this.indexes := indexes;
    }

    ghost predicate Reliable()
    {
      forall n :: !fault(n)
    }

    ghost predicate Unreachable()
    {
      forall n :: fault(n)
    }

    /** One request/response exchange with the server. */
    method RoundTrip() returns (ok: bool)
      modifies this`trips
      ensures trips == old(trips) + 1
      ensures ok == !fault(old(trips))
    {
      ok := !fault(trips);
      trips := trips + 1;
    }

    /** GET key */
    method StringGet(key: string) returns (r: Result<Option<string>>)
      modifies this`trips
      ensures trips == old(trips) + 1
      ensures fault(old(trips)) ==> r == Err(ConnectionFailed)
      ensures !fault(old(trips)) && key !in keyspace ==> r == Ok(None)
      ensures !fault(old(trips)) && key in keyspace ==>
                r == if keyspace[key].Str? then Ok(Some(keyspace[key].value)) else Err(WrongType(key))
    {
      var ok := RoundTrip();
      if !ok {
        return Err(ConnectionFailed);
      }
      if key !in keyspace {
        return Ok(None);
      }
      match keyspace[key]
      case Str(v, _) => return Ok(Some(v));
      case _ => return Err(WrongType(key));
    }

    /** SET key value EX ttl: replaces whatever the key held. */
    method StringSet(key: string, value: string, ttlSeconds: int) returns (r: Result<Unit>)
      modifies this`trips, this`keyspace
      ensures trips == old(trips) + 1
      ensures r.Ok? <==> !fault(old(trips))
      ensures r.Ok? ==> keyspace == old(keyspace)[key := Str(value, ttlSeconds)]
      ensures r.Err? ==> r.error == ConnectionFailed && keyspace == old(keyspace)
    {
      var ok := RoundTrip();
      if !ok {
        return Err(ConnectionFailed);
      }
      keyspace := keyspace[key := Str(value, ttlSeconds)];
      return Ok(Unit);
    }

    /** LPUSH key value: returns the new length. */
    method ListLeftPush(key: string, value: string) returns (r: Result<nat>)
      modifies this`trips, this`keyspace
      ensures trips == old(trips) + 1
      ensures r.Ok? <==> !fault(old(trips)) && ListOrAbsent(old(keyspace), key)
      ensures r.Ok? ==> keyspace == old(keyspace)[key := List([value] + ListAt(old(keyspace), key))]
      ensures r.Ok? ==> r.value == |ListAt(old(keyspace), key)| + 1
      ensures r.Err? ==> keyspace == old(keyspace)
    {
      var ok := RoundTrip();
      if !ok {
        return Err(ConnectionFailed);
      }
      if !ListOrAbsent(keyspace, key) {
        return Err(WrongType(key));
      }
      var items := [value] + ListAt(keyspace, key);
      keyspace := keyspace[key := List(items)];
      return Ok(|items|);
    }

    /** LTRIM key start stop: an emptied list is deleted. */
    method ListTrim(key: string, start: int, stop: int) returns (r: Result<Unit>)
      modifies this`trips, this`keyspace
      ensures trips == old(trips) + 1
      ensures r.Ok? <==> !fault(old(trips)) && ListOrAbsent(old(keyspace), key)
      ensures r.Ok? && key in old(keyspace) ==>
                var kept := Range(old(keyspace)[key].items, start, stop);
                keyspace == if kept == [] then old(keyspace) - {key} else old(keyspace)[key := List(kept)]
      ensures r.Ok? && key !in old(keyspace) ==> keyspace == old(keyspace)
      ensures r.Err? ==> keyspace == old(keyspace)
    {
      var ok := RoundTrip();
      if !ok {
        return Err(ConnectionFailed);
      }
      if !ListOrAbsent(keyspace, key) {
        return Err(WrongType(key));
      }
      if key in keyspace {
        var kept := Range(keyspace[key].items, start, stop);
        keyspace := if kept == [] then keyspace - {key} else keyspace[key := List(kept)];
      }
      return Ok(Unit);
    }

    /** LRANGE key start stop: an absent key reads as the empty list. */
    method ListRange(key: string, start: int, stop: int) returns (r: Result<seq<string>>)
      modifies this`trips
      ensures trips == old(trips) + 1
      ensures r.Ok? <==> !fault(old(trips)) && ListOrAbsent(keyspace, key)
      ensures r.Ok? ==> r.value == Range(ListAt(keyspace, key), start, stop)
    {
      var ok := RoundTrip();
      if !ok {
        return Err(ConnectionFailed);
      }
      if !ListOrAbsent(keyspace, key) {
        return Err(WrongType(key));
      }
      return Ok(Range(ListAt(keyspace, key), start, stop));
    }

    /** HSET key f1 v1 f2 v2 ... */
    method HashSet(key: string, fields: seq<NameValue>) returns (r: Result<Unit>)
      modifies this`trips, this`keyspace
      ensures trips == old(trips) + 1
      ensures r.Ok? <==> !fault(old(trips)) && HashOrAbsent(old(keyspace), key)
      ensures r.Ok? ==> keyspace == old(keyspace)[key := Hash(SetFields(HashAt(old(keyspace), key), fields))]
      ensures r.Err? ==> keyspace == old(keyspace)
    {
      var ok := RoundTrip();
      if !ok {
        return Err(ConnectionFailed);
      }
      if !HashOrAbsent(keyspace, key) {
        return Err(WrongType(key));
      }
      keyspace := keyspace[key := Hash(SetFields(HashAt(keyspace, key), fields))];
      return Ok(Unit);
    }

    /** XADD key * f1 v1 ...: the client library refuses an entry without
        pairs before sending anything. Entry ids are not modelled. */
    method StreamAdd(key: string, entry: seq<NameValue>) returns (r: Result<Unit>)
      modifies this`trips, this`keyspace
      ensures entry == [] ==> r == Err(EmptyStreamEntry) && trips == old(trips)
      ensures entry != [] ==> trips == old(trips) + 1
      ensures r.Ok? <==> entry != [] && !fault(old(trips)) && StreamOrAbsent(old(keyspace), key)
      ensures r.Ok? ==> keyspace == old(keyspace)[key := Stream(StreamAt(old(keyspace), key) + [entry])]
      ensures r.Err? ==> keyspace == old(keyspace)
    {
      if entry == [] {
        return Err(EmptyStreamEntry);
      }
      var ok := RoundTrip();
      if !ok {
        return Err(ConnectionFailed);
      }
      if !StreamOrAbsent(keyspace, key) {
        return Err(WrongType(key));
      }
      keyspace := keyspace[key := Stream(StreamAt(keyspace, key) + [entry])];
      return Ok(Unit);
    }

    /** FT._LIST: the names of the existing indexes. */
    method IndexList() returns (r: Result<set<string>>)
      modifies this`trips
      ensures trips == old(trips) + 1
      ensures r.Ok? <==> !fault(old(trips))
      ensures r.Ok? ==> r.value == indexes.Keys
    {
      var ok := RoundTrip();
      if !ok {
        return Err(ConnectionFailed);
      }
      return Ok(indexes.Keys);
    }

    /** FT.DROPINDEX name (without DD): the index goes, its hashes stay. */
    method DropIndex(name: string) returns (r: Result<Unit>)
      modifies this`trips, this`indexes
      ensures trips == old(trips) + 1
      ensures r.Ok? <==> !fault(old(trips)) && name in old(indexes)
      ensures r.Ok? ==> indexes == old(indexes) - {name}
      ensures r.Err? ==> indexes == old(indexes)
    {
      var ok := RoundTrip();
      if !ok {
        return Err(ConnectionFailed);
      }
      if name !in indexes {
        return Err(UnknownIndex(name));
      }
      indexes := indexes - {name};
      return Ok(Unit);
    }

    /** FT.CREATE name ...: refused when the name is taken. */
    method CreateIndex(name: string, def: IndexDef) returns (r: Result<Unit>)
      modifies this`trips, this`indexes
      ensures trips == old(trips) + 1
      ensures r.Ok? <==> !fault(old(trips)) && name !in old(indexes)
      ensures r.Ok? ==> indexes == old(indexes)[name := def]
      ensures r.Err? ==> indexes == old(indexes)
    {
      var ok := RoundTrip();
      if !ok {
        return Err(ConnectionFailed);
      }
      if name in indexes {
        return Err(IndexExists(name));
      }
      indexes := indexes[name := def];
      return Ok(Unit);
    }

    /** FT.SEARCH name "(*)=>[KNN k @field $vec]": the ranking is the
        server's business, so the reply for a query vector is given by `knn`.
        A blob the field cannot take is refused. */
    method Search(name: string, field: string, queryBlob: seq<bv8>, knn: seq<bv8> -> RedisResult) returns (r: Result<RedisResult>)
      modifies this`trips
      ensures trips == old(trips) + 1
      ensures r.Ok? <==> !fault(old(trips)) && name in indexes && QueryFits(indexes[name], field, queryBlob)
      ensures r.Ok? ==> r.value == knn(queryBlob)
    {
      var ok := RoundTrip();
      if !ok {
        return Err(ConnectionFailed);
      }
      if name !in indexes {
        return Err(UnknownIndex(name));
      }
      if !QueryFits(indexes[name], field, queryBlob) {
        return Err(BadQueryVector(name));
      }
      return Ok(knn(queryBlob));
    }
  }

  /** Whether a client holds a handle after its connect step, starting at
      round trip n: it already held one, or the connect is answered. */
  ghost predicate HandleAfter(server: RedisServer, held: bool, n: nat)
  {
    held || !server.fault(n)
  }

  /** The round trip a client's first command goes out on, starting at n:
      n when it holds a handle, n + 1 after the connect attempt. */
  function CommandTrip(held: bool, n: nat): nat
  {
    if held then n else n + 1
  }

  /** The round trip count after a call that connects if need be and, once
      it has a handle, sends `commands` commands: none goes out without one. */
  ghost function TripsAfter(server: RedisServer, held: bool, n: nat, commands: nat): nat
  {
    if HandleAfter(server, held, n) then CommandTrip(held, n) + commands else CommandTrip(held, n)
  }

  /** ConnectionMultiplexer.ConnectAsync followed by GetDatabase: one round
      trip that yields a fresh handle on the server. */
  method Connect(server: RedisServer) returns (r: Result<Database>)
    modifies server`trips
    ensures server.trips == old(server.trips) + 1
    ensures r.Ok? <==> !server.fault(old(server.trips))
    ensures r.Ok? ==> fresh(r.value) && r.value.server == server
    ensures r.Err? ==> r.error == ConnectionFailed
  {
    var ok := server.RoundTrip();
    if !ok {
      return Err(ConnectionFailed);
    }
    var db := new Database(server);
    return Ok(db);
  }
}
