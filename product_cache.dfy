/** The catalog's product cache (ProductCacheService), a facade over the
    Redis adapter: single products under "products:{id}", the whole list
    under "products", JSON text as the cached value. The list cache can be
    switched off with PRODUCT_LIST_CACHE_DISABLE=1, which makes list reads
    miss and list writes do nothing, without touching the store. */
module ProductCache {
  import opened Common
  import opened Store
  import opened Models
  import Redis
  import History

  const Prefix := "products"
  const DisableSetting := "PRODUCT_LIST_CACHE_DISABLE"

  /** ProductKey(): the one key of the whole list. */
  function ProductListKey(): string
  {
    Prefix
  }

  /** ProductKey(productId): "products:{productId}" */
  function ProductKey(productId: string): string
  {
    Prefix + ":" + productId
  }

  /** The list key is no product's key: every product key is longer and has
      a ':' after the prefix. Distinct ids have distinct keys. */
  lemma ProductKeysDistinct(id: string, other: string)
    ensures |ProductKey(id)| > |ProductListKey()| && ProductKey(id)[|Prefix|] == ':'
    ensures ProductKey(id) != ProductListKey()
    ensures ProductKey(id) == ProductKey(other) ==> id == other
  {
    if ProductKey(id) == ProductKey(other) {
      assert id == ProductKey(id)[|Prefix| + 1..];
      assert other == ProductKey(other)[|Prefix| + 1..];
    }
  }

  /** The cache, the vector records and the histories share one keyspace
      without sharing a key. */
  lemma NamespacesDisjoint(id: string, recordId: string, userId: string)
    ensures ProductKey(id) != Redis.RecordKey(recordId) && ProductListKey() != Redis.RecordKey(recordId)
    ensures ProductKey(id) != History.UserHistoryKey(userId) && ProductListKey() != History.UserHistoryKey(userId)
    ensures Redis.RecordKey(recordId) != History.UserHistoryKey(userId)
  {
    assert ProductKey(id)[7] == 's' && Redis.RecordKey(recordId)[7] == '_';
    assert ProductListKey()[7] == 's';
    assert ProductKey(id)[0] == 'p' && ProductListKey()[0] == 'p' && Redis.RecordKey(recordId)[0] == 'p';
    assert History.UserHistoryKey(userId)[0] == 'h';
  }

  /** configuration["PRODUCT_LIST_CACHE_DISABLE"] == "1": a missing setting
      and any other text leave the list cache on. */
  function ListCacheDisabled(configuration: Config): bool
  {
    Setting(configuration, DisableSetting) == Some("1")
  }

  /** The cache-miss convention: no text is no value; text is deserialised
      (the JSON literal null gives no value, malformed JSON an error). */
  function DecodeCached<T>(codec: Codec<T>, json: Option<string>): Result<Option<T>>
  {
    if json.None? then Ok(None) else codec.decode(json.value)
  }

  /** A value written with SET as JSON is read back as itself. */
  lemma CachedRoundTrip<T(!new)>(codec: Codec<T>, ks: Keyspace, key: string, x: T, ttl: int)
    requires RoundTrips(codec)
    ensures DecodeCached(codec, Redis.CachedValue(ks[key := Str(codec.encode(x), ttl)], key)) == Ok(Some(x))
  {
    Redis.CachedAfterSet(ks, key, codec.encode(x), ttl, key);
  }

  class ProductCacheService {
    const redis: Redis.RedisService
    const disableProductListCache: bool
    const productCodec: Codec<Product>
    const listCodec: Codec<seq<Product>>

    ghost predicate Valid()
      reads redis
    {
      redis.Valid()
    }

    constructor (redis: Redis.RedisService, configuration: Config, productCodec: Codec<Product>, listCodec: Codec<seq<Product>>)
      requires redis.Valid()
      ensures Valid()
      ensures this.redis == redis
      ensures disableProductListCache <==> DisableSetting in configuration && configuration[DisableSetting] == "1"
      ensures this.productCodec == productCodec && this.listCodec == listCodec
    {
      this.redis := redis;
      disableProductListCache := ListCacheDisabled(configuration);
      this.productCodec := productCodec;
      this.listCodec := listCodec;
    }

    /** GetProductAsync: no value when Get misses, else the deserialised
        text. */
    method GetProductAsync(id: string) returns (r: Result<Option<Product>>)
      requires Valid()
      modifies redis`database, redis.server`trips
      ensures Valid()
      ensures redis.database != null <==> HandleAfter(redis.server, old(redis.database) != null, old(redis.server.trips))
      ensures old(redis.database) == null && redis.database != null ==> fresh(redis.database)
      ensures redis.server.trips == TripsAfter(redis.server, old(redis.database) != null, old(redis.server.trips), 1)
      ensures r == DecodeCached(productCodec,
                     if redis.Served(old(redis.database) != null, old(redis.server.trips))
                     then Redis.CachedValue(redis.server.keyspace, ProductKey(id)) else None)
      ensures redis.server.Reliable() ==> r == DecodeCached(productCodec, Redis.CachedValue(redis.server.keyspace, ProductKey(id)))
    {
      var json := redis.Get(ProductKey(id));
      if json == None {
        return Ok(None);
      }
      return productCodec.decode(json.value);
    }

    /** SetProductAsync: the product's JSON under products:{id}, nothing else. */
    method SetProductAsync(product: Product) returns (r: Result<Unit>)
      requires Valid()
      modifies redis`database, redis.server`trips, redis.server`keyspace
      ensures Valid()
      ensures redis.database != null <==> HandleAfter(redis.server, old(redis.database) != null, old(redis.server.trips))
      ensures old(redis.database) == null && redis.database != null ==> fresh(redis.database)
      ensures redis.server.trips == TripsAfter(redis.server, old(redis.database) != null, old(redis.server.trips), 1)
      ensures r.Ok? <==> redis.Served(old(redis.database) != null, old(redis.server.trips))
      ensures r.Ok? ==> redis.server.keyspace ==
                        old(redis.server.keyspace)[ProductKey(product.id) := Str(productCodec.encode(product), redis.ttlSeconds)]
      ensures r.Err? ==> redis.server.keyspace == old(redis.server.keyspace)
    {
      var json := productCodec.encode(product);
      r := redis.Set(ProductKey(product.id), json);
    }

    /** GetProductsAsync: with the list cache off, no value and no store
        access at all. */
    method GetProductsAsync() returns (r: Result<Option<seq<Product>>>)
      requires Valid()
      modifies redis`database, redis.server`trips
      ensures Valid()
      ensures disableProductListCache ==> r == Ok(None) && redis.server.trips == old(redis.server.trips) && redis.database == old(redis.database)
      ensures !disableProductListCache ==> (redis.database != null <==> HandleAfter(redis.server, old(redis.database) != null, old(redis.server.trips)))
      ensures !disableProductListCache ==> (old(redis.database) == null && redis.database != null ==> fresh(redis.database))
      ensures !disableProductListCache ==> redis.server.trips == TripsAfter(redis.server, old(redis.database) != null, old(redis.server.trips), 1)
      ensures !disableProductListCache ==>
                r == DecodeCached(listCodec,
                       if redis.Served(old(redis.database) != null, old(redis.server.trips))
                       then Redis.CachedValue(redis.server.keyspace, ProductListKey()) else None)
    {
      if disableProductListCache {
        return Ok(None);
      }
      var json := redis.Get(ProductListKey());
      if json == None {
        return Ok(None);
      }
      return listCodec.decode(json.value);
    }

    /** SetProductsAsync: the list's JSON under "products" (the key
        GetProductsAsync reads); with the list cache off, nothing happens. */
    method SetProductsAsync(products: seq<Product>) returns (r: Result<Unit>)
      requires Valid()
      modifies redis`database, redis.server`trips, redis.server`keyspace
      ensures Valid()
      ensures disableProductListCache ==>
                r.Ok? && redis.server.keyspace == old(redis.server.keyspace) &&
                redis.server.trips == old(redis.server.trips) && redis.database == old(redis.database)
      ensures !disableProductListCache ==> (redis.database != null <==> HandleAfter(redis.server, old(redis.database) != null, old(redis.server.trips)))
      ensures !disableProductListCache ==> (old(redis.database) == null && redis.database != null ==> fresh(redis.database))
      ensures !disableProductListCache ==> redis.server.trips == TripsAfter(redis.server, old(redis.database) != null, old(redis.server.trips), 1)
      ensures !disableProductListCache ==> (r.Ok? <==> redis.Served(old(redis.database) != null, old(redis.server.trips)))
      ensures !disableProductListCache && r.Ok? ==>
                redis.server.keyspace == old(redis.server.keyspace)[ProductListKey() := Str(listCodec.encode(products), redis.ttlSeconds)]
      ensures r.Err? ==> redis.server.keyspace == old(redis.server.keyspace)
    {
      if !disableProductListCache {
        var json := listCodec.encode(products);
        r := redis.Set(Prefix, json);
      } else {
        r := Ok(Unit);
      }
    }
  }

  /** On a reliable server a product written with SetProductAsync is what
      GetProductAsync returns for its id, and no other product's entry
      changes. */
  method SetThenGetProduct(cache: ProductCacheService, product: Product, other: string) returns (got: Result<Option<Product>>)
    requires cache.Valid() && cache.redis.server.Reliable()
    requires RoundTrips(cache.productCodec)
    modifies cache.redis`database, cache.redis.server`trips, cache.redis.server`keyspace
    ensures got == Ok(Some(product))
    ensures other != product.id ==>
              Redis.CachedValue(cache.redis.server.keyspace, ProductKey(other)) ==
              Redis.CachedValue(old(cache.redis.server.keyspace), ProductKey(other))
  {
    ghost var ks := cache.redis.server.keyspace;
    var written := cache.SetProductAsync(product);
    CachedRoundTrip(cache.productCodec, ks, ProductKey(product.id), product, cache.redis.ttlSeconds);
    ProductKeysDistinct(other, product.id);
    Redis.CachedAfterSet(ks, ProductKey(product.id), cache.productCodec.encode(product), cache.redis.ttlSeconds, ProductKey(other));
    got := cache.GetProductAsync(product.id);
  }

  /** With the list cache on and a reliable server, the list written with
      SetProductsAsync is what GetProductsAsync returns, and no product's own
      entry changes. */
  method SetThenGetProducts(cache: ProductCacheService, products: seq<Product>, id: string) returns (got: Result<Option<seq<Product>>>)
    requires cache.Valid() && cache.redis.server.Reliable() && !cache.disableProductListCache
    requires RoundTrips(cache.listCodec)
    modifies cache.redis`database, cache.redis.server`trips, cache.redis.server`keyspace
    ensures got == Ok(Some(products))
    ensures Redis.CachedValue(cache.redis.server.keyspace, ProductKey(id)) ==
            Redis.CachedValue(old(cache.redis.server.keyspace), ProductKey(id))
  {
    ghost var ks := cache.redis.server.keyspace;
    var written := cache.SetProductsAsync(products);
    CachedRoundTrip(cache.listCodec, ks, ProductListKey(), products, cache.redis.ttlSeconds);
    ProductKeysDistinct(id, id);
    Redis.CachedAfterSet(ks, ProductListKey(), cache.listCodec.encode(products), cache.redis.ttlSeconds, ProductKey(id));
    got := cache.GetProductsAsync();
  }
}
