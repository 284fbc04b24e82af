/** The browsing history of the history function (HistoryStoreService): per
    user, a Redis list under "history:{userId}" of serialised product views,
    most recent first and at most ten long. Adding is two commands, LPUSH
    then LTRIM 0 9, so a failure between them leaves the pushed but
    untrimmed list behind. */
module History {
  import opened Common
  import opened Store

  const MaxListSize := 10
  const HistoryPrefix := "history:"

  /** "history:{userId}" */
  function UserHistoryKey(userId: string): string
  {
    HistoryPrefix + userId
  }

  /** Distinct users have distinct lists. */
  lemma UserHistoryKeyInjective(u: string, v: string)
    requires UserHistoryKey(u) == UserHistoryKey(v)
    ensures u == v
  {
    assert u == UserHistoryKey(u)[|HistoryPrefix|..];
    assert v == UserHistoryKey(v)[|HistoryPrefix|..];
  }

  /** A list after LPUSH x then LTRIM 0 (MaxListSize - 1). */
  function PushBounded(xs: seq<string>, x: string): seq<string>
  {
    Range([x] + xs, 0, MaxListSize - 1)
  }

  function Min(a: int, b: int): int { if a < b then a else b }

  /** The pushed entry comes first, then the previous list's first nine (or
      fewer) entries in their order, and the list never exceeds ten. */
  lemma PushBoundedMeaning(xs: seq<string>, x: string)
    ensures PushBounded(xs, x) == ([x] + xs)[..Min(MaxListSize, |xs| + 1)]
    ensures |PushBounded(xs, x)| == Min(MaxListSize, |xs| + 1)
    ensures PushBounded(xs, x)[0] == x
    ensures PushBounded(xs, x)[1..] == xs[..Min(MaxListSize - 1, |xs|)]
  {
  }

  function Reverse<T>(xs: seq<T>): (r: seq<T>)
    ensures |r| == |xs|
  {
    if xs == [] then [] else [xs[|xs| - 1]] + Reverse(xs[..|xs| - 1])
  }

  lemma {:induction false} ReverseAt<T>(xs: seq<T>, k: nat)
    requires k < |xs|
    ensures Reverse(xs)[k] == xs[|xs| - 1 - k]
  {
    if k > 0 {
      ReverseAt(xs[..|xs| - 1], k - 1);
    }
  }

  /** The list after adding each of adds in turn. */
  function AddAll(xs: seq<string>, adds: seq<string>): seq<string>
  {
    if adds == [] then xs else PushBounded(AddAll(xs, adds[..|adds| - 1]), adds[|adds| - 1])
  }

  /** After any sequence of adds the list is the most recent entries first,
      followed by the earlier list, cut to ten. */
  lemma {:induction false} AddAllWindow(xs: seq<string>, adds: seq<string>)
    requires |xs| <= MaxListSize
    ensures AddAll(xs, adds) == (Reverse(adds) + xs)[..Min(MaxListSize, |adds| + |xs|)]
  {
    if adds != [] {
      var front := adds[..|adds| - 1];
      var a := adds[|adds| - 1];
      AddAllWindow(xs, front);
      WindowPush(Reverse(front) + xs, a);
      assert Reverse(adds) + xs == [a] + (Reverse(front) + xs);
    }
  }

  /** Pushing onto the ten-entry window of y gives the window of a then y. */
  lemma WindowPush(y: seq<string>, a: string)
    ensures PushBounded(y[..Min(MaxListSize, |y|)], a) == ([a] + y)[..Min(MaxListSize, |y| + 1)]
  {
    var m := Min(MaxListSize, |y|);
    PushBoundedMeaning(y[..m], a);
    PrefixCons(a, y, m, Min(MaxListSize, |y| + 1));
  }

  lemma PrefixCons<T>(a: T, y: seq<T>, m: nat, k: nat)
    requires m <= |y| && k <= m + 1
    ensures ([a] + y[..m])[..k] == ([a] + y)[..k]
  {
  }

  /** Starting from no history, eleven adds leave exactly ten entries, the
      most recent first; the first add has been evicted. */
  lemma ElevenAdds(adds: seq<string>)
    requires |adds| == MaxListSize + 1
    ensures |AddAll([], adds)| == MaxListSize
    ensures forall k :: 0 <= k < MaxListSize ==> AddAll([], adds)[k] == adds[MaxListSize - k]
  {
    AddAllWindow([], adds);
    assert Reverse(adds) + [] == Reverse(adds);
    forall k | 0 <= k < MaxListSize
      ensures AddAll([], adds)[k] == adds[MaxListSize - k]
    {
      ReverseAt(adds, k);
    }
  }

  /** Writing one user's list leaves every other user's list as it was. */
  lemma OtherUsersUnchanged(ks: Keyspace, u: string, e: Entry, v: string)
    requires u != v
    ensures ListAt(ks[UserHistoryKey(u) := e], UserHistoryKey(v)) == ListAt(ks, UserHistoryKey(v))
  {
    if UserHistoryKey(u) == UserHistoryKey(v) {
      UserHistoryKeyInjective(u, v);
    }
  }

  /** The lazily deserialised views, element by element (a JsonException
      surfaces when that element is enumerated). */
  function DecodeAll<V>(codec: Codec<V>, items: seq<string>): (r: seq<Result<Option<V>>>)
    ensures |r| == |items|
    ensures forall i :: 0 <= i < |items| ==> r[i] == codec.decode(items[i])
    decreases |items|
  {
    if items == [] then [] else DecodeAll(codec, items[..|items| - 1]) + [codec.decode(items[|items| - 1])]
  }

  /** The entry just added reads back as the view that was added. */
  lemma HeadRoundTrip<V(!new)>(codec: Codec<V>, xs: seq<string>, view: V)
    requires RoundTrips(codec)
    ensures DecodeAll(codec, PushBounded(xs, codec.encode(view)))[0] == Ok(Some(view))
  {
    PushBoundedMeaning(xs, codec.encode(view));
  }

  class HistoryStoreService<V> {
    var database: Database?
    const server: RedisServer
    const codec: Codec<V>

    ghost predicate Valid()
      reads this
    {
      database != null ==> database.server == server
    }

    constructor (server: RedisServer, codec: Codec<V>)
      ensures Valid() && database == null
      ensures this.server == server && this.codec == codec
    {
      database := null;
      this.server := server;
      this.codec := codec;
    }

    /** GetDatabaseAsync: connect on first use and keep the handle. */
    method GetDatabase() returns (r: Result<Database>)
      requires Valid()
      modifies this`database, server`trips
      ensures Valid()
      ensures old(database) != null ==> r == Ok(old(database)) && database == old(database) && server.trips == old(server.trips)
      ensures old(database) == null ==> server.trips == old(server.trips) + 1 && (r.Ok? <==> !server.fault(old(server.trips)))
      ensures old(database) == null && r.Ok? ==> fresh(r.value) && database == r.value
      ensures r.Ok? ==> r.value.server == server
      ensures r.Err? ==> r.error == ConnectionFailed && database == null
    {
      if database != null {
        return Ok(database);
      }
      r := Connect(server);
      if r.Ok? {
        database := r.value;
      }
    }

    /** GetHistory: LRANGE key 0 -1, every element deserialised; an absent
        key gives the empty history. Failures propagate. */
    method GetHistory(userId: string) returns (r: Result<seq<Result<Option<V>>>>)
      requires Valid()
      modifies this`database, server`trips
      ensures Valid()
      ensures old(database) != null ==> database == old(database)
      ensures database != null <==> HandleAfter(server, old(database) != null, old(server.trips))
      ensures old(database) == null && database != null ==> fresh(database)
      ensures server.trips == TripsAfter(server, old(database) != null, old(server.trips), 1)
      ensures r.Ok? ==> r.value == DecodeAll(codec, ListAt(server.keyspace, UserHistoryKey(userId)))
      ensures r.Ok? && UserHistoryKey(userId) !in server.keyspace ==> r.value == []
      ensures server.Reliable() ==> (r.Ok? <==> ListOrAbsent(server.keyspace, UserHistoryKey(userId)))
      ensures server.Unreachable() ==> r.Err?
    {
      var key := UserHistoryKey(userId);
      var db := GetDatabase();
      if db.Err? {
        return Err(db.error);
      }
      var list := db.value.server.ListRange(key, 0, -1);
      if list.Err? {
        return Err(list.error);
      }
      RangeAll(ListAt(server.keyspace, key));
      return Ok(DecodeAll(codec, list.value));
    }

    /** AddToHistory: push the serialised view at the head of the user's
        list, then trim it to ten. Failures propagate; one between the two
        commands leaves the push in place. */
    method AddToHistory(userId: string, productView: V) returns (r: Result<Unit>)
      requires Valid()
      modifies this`database, server`trips, server`keyspace
      ensures Valid()
      ensures old(database) != null ==> database == old(database)
      ensures database != null <==> HandleAfter(server, old(database) != null, old(server.trips))
      ensures old(database) == null && database != null ==> fresh(database)
      ensures var pushed := !server.fault(CommandTrip(old(database) != null, old(server.trips))) && ListOrAbsent(old(server.keyspace), UserHistoryKey(userId));
              server.trips == TripsAfter(server, old(database) != null, old(server.trips), if pushed then 2 else 1)
      ensures var key := UserHistoryKey(userId);
              r.Ok? ==> server.keyspace == old(server.keyspace)[key := List(PushBounded(ListAt(old(server.keyspace), key), codec.encode(productView)))]
      ensures var key := UserHistoryKey(userId);
              r.Err? ==> server.keyspace == old(server.keyspace) ||
                         server.keyspace == old(server.keyspace)[key := List([codec.encode(productView)] + ListAt(old(server.keyspace), key))]
      ensures server.Reliable() ==> (r.Ok? <==> ListOrAbsent(old(server.keyspace), UserHistoryKey(userId)))
      ensures server.Unreachable() ==> r.Err? && server.keyspace == old(server.keyspace)
    {
      var key := UserHistoryKey(userId);
      var productViewJson := codec.encode(productView);
      var db := GetDatabase();
      if db.Err? {
        return Err(db.error);
      }
      var pushed := db.value.server.ListLeftPush(key, productViewJson);
      if pushed.Err? {
        return Err(pushed.error);
      }
      PushBoundedMeaning(ListAt(old(server.keyspace), key), productViewJson);
      r := db.value.server.ListTrim(key, 0, MaxListSize - 1);
    }
  }

  /** On a reliable server, a view added to a user's history is at the head
      of what GetHistory returns next, and the history holds at most ten. */
  method AddThenGet<V(!new)>(service: HistoryStoreService<V>, userId: string, productView: V) returns (got: Result<seq<Result<Option<V>>>>)
    requires service.Valid() && service.server.Reliable()
    requires RoundTrips(service.codec)
    requires ListOrAbsent(service.server.keyspace, UserHistoryKey(userId))
    modifies service`database, service.server`trips, service.server`keyspace
    ensures got.Ok? && 1 <= |got.value| <= MaxListSize
    ensures got.value[0] == Ok(Some(productView))
  {
    ghost var before := ListAt(service.server.keyspace, UserHistoryKey(userId));
    var added := service.AddToHistory(userId, productView);
    PushBoundedMeaning(before, service.codec.encode(productView));
    HeadRoundTrip(service.codec, before, productView);
    got := service.GetHistory(userId);
  }
}
