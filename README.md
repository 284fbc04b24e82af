# Azure Managed Redis hands-on lab: the catalog and history cores in Dafny

This project models the four pieces of logic in the lab's catalog API and
history function that sit on top of Redis:

- **The Redis adapter of the catalog** (`RedisService`). It covers:
  - the time to live read from `AZURE_REDIS_TTL_IN_SECONDS`;
  - the connection, made on first use and then kept;
  - a `Get` that swallows every failure, and where an empty string means absent;
  - a `Set` that lets failures through;
  - stream entries built from a dictionary;
  - the rebuild of the `products_index` vector index: drop it if `FT._LIST` lists it, create it, then write one `product_vector:{Id}` hash per product;
  - the byte layout of an embedding;
  - the parse of the `FT.SEARCH` reply into result strings.
- **The browsing history** (`HistoryStoreService`). Each user has a list under `history:{userId}`. A view is added by an `LPUSH` followed by `LTRIM 0 9`. The history is read with `LRANGE 0 -1`.
- **The product cache** (`ProductCacheService`). It stores `products:{id}` for one product and `products` for the list. The list cache can be switched off with `PRODUCT_LIST_CACHE_DISABLE=1`.
- **The answer composer** (`Services/AIFoundryService`). The constructor rejects a missing setting. The chat request is a single system message. It embeds a context of numbered lines, one per search hit, and the query.

The Redis server is a class, `Store.RedisServer`. One keyspace maps keys to strings, lists, hashes and streams: a command on a key of another kind fails, as WRONGTYPE does. The search indexes are kept apart from the keyspace, so `FT.DROPINDEX` leaves the hashes in place. A vector field has a declared width (DIM 1536 for `embedding`): a hash whose blob has another width is not covered by the index, and a KNN query blob of another width makes `FT.SEARCH` fail. The provider's embeddings may have any width, so coverage after a rebuild is proved for a 1536-float provider. Each server carries a fault oracle `fault(n)`, which says whether round trip number `n` is lost. A reliable server never loses a round trip; an unreachable one loses every round trip. The methods of the services are proved against this server for every oracle. Their postconditions name which failures lead to which state, which handle is held afterwards and how many round trips were made (exactly, except on the failure paths of the index rebuild, where the count is bounded), and the corollaries for reliable and unreachable servers are stated alongside.

Several things are parameters of the model rather than code in it:
- the embedding provider and the chat provider (functions that may fail);
- JSON (a `Codec` of encode and decode, with round-tripping as a hypothesis where a lemma needs it);
- `float.Parse` (a predicate);
- the KNN ranking that Redis performs (a function from the query blob to the reply).

An embedding float is kept as its four bytes, so `Buffer.BlockCopy` is concatenation.

Two behaviours of the code are worth stating plainly:
- **Search on a missing index fails.** `SearchProducts` on a missing `products_index` fails with the wrapped "Error occurred while performing vector search". It never returns an empty list.
- **History write failures are not wrapped.** `AddToHistory` lets store failures through as they are.

## Model

| member | source | states |
|---|---|---|
| Redis.ParseInt32 | src/catalog-api/RedisService.cs:76 | int.Parse of white space, an optional sign and digits: every accepted value lies in the 32-bit range, a larger one is refused as an overflow |
| Redis.TTL | src/catalog-api/RedisService.cs:70-89 | the time to live is always positive and within 32 bits; a missing or empty setting gives 60; any other result is 60 or the value the setting parses to |
| Redis.TtlAcceptsDecimal | src/catalog-api/RedisService.cs:76-88 | any string of digits (leading zeros included) whose value is positive and within 32 bits, optionally preceded by '+' and padded with white space, is taken as the time to live, with that value |
| Redis.TtlRejectsNonPositive | src/catalog-api/RedisService.cs:83-86 | zero and negative numbers, in any padded digit form, give 60 |
| Redis.TtlRejectsOverflow | src/catalog-api/RedisService.cs:76-81 | a digit string whose value is beyond the 32-bit range (int.Parse overflows, caught) gives 60 |
| Redis.TtlRejectsForeign | src/catalog-api/RedisService.cs:76-81 | a setting with any character that is not white space, a sign or a digit gives 60 (FormatException caught) |
| Redis.RedisService.constructor | src/catalog-api/RedisService.cs:27-32 | no connection is held; the time to live is TTL of AZURE_REDIS_TTL_IN_SECONDS; keeps the embedding provider and whether its client can be constructed |
| Redis.RedisService.GetDatabase | src/catalog-api/RedisService.cs:46-63 | a held handle is returned with no round trip and stays the field's value; otherwise one connect attempt, whose handle is stored only on success |
| Redis.ConnectionKept | src/catalog-api/RedisService.cs:46-63 | the connection is made on first use and then kept: from no handle on a reliable server, two Gets make three round trips (one connect, two GETs), a fresh handle is held afterwards, and both read the stored values |
| Redis.RedisService.Get | src/catalog-api/RedisService.cs:101-120 | never fails: when connecting (if needed) and GET are answered, the result is the stored string, with a missing key, an empty string or a non-string value read as None; any lost round trip gives None; afterwards a handle is held exactly when one was held or the connect is answered (a new one is fresh), and the round trips are counted exactly |
| Redis.CachedAfterSet | src/catalog-api/RedisService.cs:101-136 | a SET is read back by GET of that key exactly when the value is non-empty, and no other key's reading changes |
| Redis.RedisService.Set | src/catalog-api/RedisService.cs:132-136 | succeeds exactly when the round trips are answered, and then replaces the key with the string and the time to live; failures propagate with the keyspace unchanged; afterwards a handle is held exactly when one was held or the connect is answered (a new one is fresh), and the round trips are counted exactly |
| Redis.SetThenGet | src/catalog-api/RedisService.cs:101-136 | on a reliable server, Set of a non-empty value followed by Get returns that value, and other keys read as before |
| Redis.StreamEntryOf | src/catalog-api/RedisService.cs:150-155 | one entry per dictionary pair, in order, with the name and the value (a null value as RedisValue.Null) |
| Redis.RedisService.AddToStream | src/catalog-api/RedisService.cs:148-159 | the loop builds StreamEntryOf(data); XADD appends it to the stream; an empty dictionary is refused; failures leave the keyspace unchanged; afterwards a handle is held exactly when one was held or the connect is answered (a new one is fresh), and the round trips are counted exactly (no XADD for an empty dictionary) |
| Redis.EmbeddingBytes | src/catalog-api/RedisService.cs:170-178 | the blob of an embedding is 4 bytes per float |
| Redis.BlobOfEmbedding | src/catalog-api/RedisService.cs:175-176 | reading a blob back four bytes at a time gives the embedding |
| Redis.EmbeddingOfBlob | src/catalog-api/RedisService.cs:175-176 | every blob whose length is a multiple of 4 is the blob of the embedding it reads back as |
| Redis.EmbeddingToByteArray | src/catalog-api/RedisService.cs:170-178 | a fresh array of 4 × n bytes holding EmbeddingBytes of the floats |
| Redis.RecordKeyInjective | src/catalog-api/RedisService.cs:211-230 | every record key starts with the index prefix product_vector:, and distinct ids get distinct keys |
| Redis.RedisService.ResetIndex | src/catalog-api/RedisService.cs:198-217 | on success exactly one products_index, with the declared schema; a failure leaves the old index table or that table without products_index; a reliable server always succeeds; the round trips are counted exactly, one per command sent, the first failure stopping it |
| Redis.RedisService.AddRecord | src/catalog-api/RedisService.cs:224-238 | succeeds exactly when the embedding is produced, HSET is answered and the key is free or a hash; then the record holds title, description and the embedding blob; one round trip exactly when the embedding is produced |
| Redis.SetRecordFields | src/catalog-api/RedisService.cs:231-238 | HSET of the three entries sets title, description and embedding in that order over the old fields |
| Redis.RedisService.AddNextRecord | src/catalog-api/RedisService.cs:224-238 | pass i of the loop: on success the records of the first i + 1 products are written; on failure the keyspace is as the first i left it, and on a reliable server product i is one the rebuild cannot write, so no full rebuild is possible; one round trip exactly when product i is embedded |
| Redis.RedisService.WriteRecords | src/catalog-api/RedisService.cs:221-239 | the loop writes the records in product order (the keyspace is Populate of the first n products); on a reliable server a failure happens exactly at product n, the first that cannot be written (CanPopulate of n + 1 fails), so the rebuild could not have succeeded; one round trip per record written, plus one for a failed HSET |
| Redis.CanPopulateMeaning | src/catalog-api/RedisService.cs:221-239 | the loop can get through n products exactly when every one of them can be embedded and its key held a hash or nothing |
| Redis.PopulateStep | src/catalog-api/RedisService.cs:221-239 | the loop goes on past product i exactly when that product can be embedded and its key is still free or a hash; otherwise neither the first i + 1 products nor the whole rebuild can be written |
| Redis.PopulateWritesRecord | src/catalog-api/RedisService.cs:230-238 | after the loop, the record of the last product with an id holds that product's title, description and embedding blob |
| Redis.PopulateLast | src/catalog-api/RedisService.cs:238 | the n-th HSET leaves the n-th product's record at its key |
| Redis.PopulateSkips | src/catalog-api/RedisService.cs:238 | the n-th HSET leaves every other key as it was |
| Redis.PopulateOthers | src/catalog-api/RedisService.cs:221-239 | keys that are no product's record are untouched by the rebuild |
| Redis.PopulateKeepsHashes | src/catalog-api/RedisService.cs:202-238 | a key that held a hash still holds one, so hashes outlive a dropped index |
| Redis.PopulateKeepsKind | src/catalog-api/RedisService.cs:238 | when every record key was free or a hash, the rebuild changes no key's kind |
| Redis.RecordCovered | src/catalog-api/RedisService.cs:211-238 | after the rebuild a product's record is covered by products_index exactly when the last product with its id was embedded with DIM (1536) floats, four bytes each; a hash whose vector has another width is not indexed |
| Redis.RebuildCoverage | src/catalog-api/RedisService.cs:211-239 | when the provider returns 1536 floats for every product, after the rebuild every product's record is covered by products_index, and so is every hash it covered before |
| Redis.LastWithId | src/catalog-api/RedisService.cs:221-239 | the last position carrying a given product id |
| Redis.RedisService.CreateProductsIndex | src/catalog-api/RedisService.cs:191-245 | on success the index is products_index with its schema and the keyspace is the full rebuild; every failure is wrapped as "Error occurred while creating the vector index" and leaves the records of the first n products written, every one of them a product the loop could write (CanPopulate of n), and on a reliable server with an embedding client product n is the first that cannot be written; a failure to construct the embedding client (after FT.CREATE, with no product written) is an error even for an empty product list; on a reliable server it succeeds exactly when the client is constructed and CanPopulate holds; an unreachable server changes nothing; on success it is embedded in full (CanPopulate of every product) on any server; the handle after a first connection is stated as for Get; the round trips are counted exactly on success and bounded by that count on failure |
| SearchReply.ScanFields | src/catalog-api/RedisService.cs:289-306 | the inner loop can only fail with a malformed reply |
| SearchReply.ScanDocs | src/catalog-api/RedisService.cs:282-310 | the outer loop can only fail with a malformed reply |
| SearchReply.ParseReply | src/catalog-api/RedisService.cs:279-312 | the parse can only fail with a malformed reply |
| SearchReply.ScanFieldsMeaning | src/catalog-api/RedisService.cs:285-306 | the inner loop succeeds exactly on an even list of convertible pairs whose vector_score parses; the title and description are then the last ones given, or "" |
| SearchReply.ScanDocsMeaning | src/catalog-api/RedisService.cs:282-310 | the outer loop succeeds exactly when each (docId, fields) pair is well formed; it gives one hit per pair, in reply order |
| SearchReply.ParseReplyMeaning | src/catalog-api/RedisService.cs:279-310 | the parse succeeds exactly on a well-formed reply, and gives one string per document in reply order, built from the document's last title and last description |
| SearchReply.ParseSearchReply | src/catalog-api/RedisService.cs:279-312 | the nested loops (i += 2, j += 2) compute ParseReply, so they succeed exactly on a well-formed reply and give one string per document |
| Redis.RedisService.SearchProducts | src/catalog-api/RedisService.cs:259-318 | success needs the embedding client, the query embedding, products_index and a query blob of the width of its embedding field (DIM 1536), and the result is the parse of the KNN reply; a missing index, a client that cannot be constructed, a failed embedding or a query vector of another width is an error, never an empty list; every error is wrapped as "Error occurred while performing vector search"; on a reliable server with a client and a query embedding it succeeds exactly when the index exists, the blob fits and the reply is well formed; the handle afterwards is stated as for Get, and FT.SEARCH goes out (one round trip) exactly when a handle, the client and the embedding are there |
| Redis.ProductsQueryFits | src/catalog-api/RedisService.cs:217-276 | a KNN query on @embedding of products_index takes the query blob exactly when the embedding has DIM (1536) floats |
| History.UserHistoryKeyInjective | src/history-func/HistoryStoreService.cs:37 | distinct users have distinct history keys |
| History.PushBoundedMeaning | src/history-func/HistoryStoreService.cs:17-60 | after LPUSH and LTRIM 0 9 the list starts with the new entry, continues with the old list's first nine (or fewer) in order, and holds min(10, n + 1) entries |
| History.AddAllWindow | src/history-func/HistoryStoreService.cs:17-60 | after any sequence of adds onto a list of at most ten, the list is the adds most recent first, then the old list, cut to ten |
| History.WindowPush | src/history-func/HistoryStoreService.cs:59-60 | pushing onto the ten-entry window of a list gives the window of the new entry followed by the list |
| History.ElevenAdds | src/history-func/HistoryStoreService.cs:17-60 | starting from no history, eleven adds leave exactly ten entries, the most recent first; the first add is evicted |
| History.OtherUsersUnchanged | src/history-func/HistoryStoreService.cs:55-60 | writing one user's list changes no other user's list |
| History.DecodeAll | src/history-func/HistoryStoreService.cs:49 | the views, one per stored element in order, each the deserialisation of that element |
| History.HeadRoundTrip | src/history-func/HistoryStoreService.cs:56-59 | the entry just added reads back as the view that was added |
| History.HistoryStoreService.constructor | src/history-func/HistoryStoreService.cs:17-35 | no connection is held yet; keeps the server and the serialiser |
| History.HistoryStoreService.GetDatabase | src/history-func/HistoryStoreService.cs:20-35 | a held handle is returned without a round trip; otherwise one connect attempt, stored only on success |
| History.HistoryStoreService.GetHistory | src/history-func/HistoryStoreService.cs:39-51 | the whole stored list, in order, deserialised element by element; an absent key gives []; on a reliable server it fails only on a key of another kind; afterwards a handle is held exactly when one was held or the connect is answered (a new one is fresh), and the round trips are counted exactly |
| History.HistoryStoreService.AddToHistory | src/history-func/HistoryStoreService.cs:53-61 | on success the user's list is PushBounded of the old list and nothing else changes; a failure leaves the keyspace unchanged or the pushed but untrimmed list; on a reliable server it succeeds exactly when the key is a list or absent; afterwards a handle is held exactly when one was held or the connect is answered (a new one is fresh), and the round trips are counted exactly (LTRIM goes out only after an answered LPUSH) |
| History.AddThenGet | src/history-func/HistoryStoreService.cs:39-61 | on a reliable server, a view added is at the head of the next GetHistory, which holds one to ten entries |
| ProductCache.ProductKeysDistinct | src/catalog-api/Services/ProductCacheService.cs:17-29 | a product key is longer than the list key and has ':' after the prefix, so it never equals the list key; distinct ids have distinct keys |
| ProductCache.NamespacesDisjoint | src/catalog-api/Services/ProductCacheService.cs:27-29 | cache keys, vector record keys and history keys never collide |
| ProductCache.ProductCacheService.constructor | src/catalog-api/Services/ProductCacheService.cs:20-24 | keeps the adapter and the codecs and establishes the service invariant; the list cache is off exactly when PRODUCT_LIST_CACHE_DISABLE is present and equals "1" (a missing setting or any other text leaves it on) |
| ProductCache.CachedRoundTrip | src/catalog-api/Services/ProductCacheService.cs:31-46 | a value written with SET as JSON is read back by the cache as itself |
| ProductCache.ProductCacheService.GetProductAsync | src/catalog-api/Services/ProductCacheService.cs:31-40 | a miss of Get on products:{id} gives no value; a hit gives the deserialisation of the cached text, which is itself no value for the JSON literal null and an error for malformed JSON; afterwards a handle is held exactly when one was held or the connect is answered (a new one is fresh), and the round trips are counted exactly |
| ProductCache.ProductCacheService.SetProductAsync | src/catalog-api/Services/ProductCacheService.cs:42-46 | writes only products:{id} with the product's JSON; a failure changes nothing; afterwards a handle is held exactly when one was held or the connect is answered (a new one is fresh), and the round trips are counted exactly |
| ProductCache.ProductCacheService.GetProductsAsync | src/catalog-api/Services/ProductCacheService.cs:48-61 | with the list cache off, no value, no round trip and no connection; otherwise the deserialised text under "products"; with it on, the handle and the round trips are those of Get |
| ProductCache.ProductCacheService.SetProductsAsync | src/catalog-api/Services/ProductCacheService.cs:63-69 | with the list cache off, the store and the connection are untouched; otherwise it writes only "products"; with it on, the handle and the round trips are those of Set |
| ProductCache.SetThenGetProduct | src/catalog-api/Services/ProductCacheService.cs:31-46 | on a reliable server, a product set is the product got back for its id, and other products' entries read as before |
| ProductCache.SetThenGetProducts | src/catalog-api/Services/ProductCacheService.cs:48-69 | with the list cache on and a reliable server, the list set is the list got back, and no product's own entry changes |
| AIFoundry.NewAIFoundryService | src/catalog-api/Services/AIFoundryService.cs:23-28 | construction succeeds exactly when the three settings are present, and keeps their values; otherwise the error names the first missing setting in order |
| AIFoundry.ContextLineIsOneLine | src/catalog-api/Services/AIFoundryService.cs:53 | a hit's context line holds no line break when the hit holds none |
| AIFoundry.ContextLayout | src/catalog-api/Services/AIFoundryService.cs:53 | cutting the context at its line breaks gives one line per hit, in hit order, line i being "{i+1}. {Title} : {Description}", with no trailing separator |
| AIFoundry.NumberingDistinct | src/catalog-api/Services/AIFoundryService.cs:53 | different lines carry different numbers |
| AIFoundry.ChatRequest | src/catalog-api/Services/AIFoundryService.cs:50-66 | GetChatCompletions hands the provider Messages(query, rag), and that request is one system message; its text starts with the context label, then the context, then the "I don't know" fallback, and ends with the query; with no hits the context is empty and the request is still made |
| AIFoundry.PromptLayout | src/catalog-api/Services/AIFoundryService.cs:56-61 | where each part of the prompt template starts |
| Common.DecimalValue | src/catalog-api/Services/AIFoundryService.cs:53 | the decimal text of a number is digits whose value is the number |
| Common.DecimalInjective | src/catalog-api/Services/AIFoundryService.cs:53 | distinct numbers have distinct decimal texts |
| Common.SplitJoin | src/catalog-api/Services/AIFoundryService.cs:53 | splitting string.Join of lines free of the separator gives the lines back |
| Store.RedisServer.StringGet | src/catalog-api/RedisService.cs:106 | GET: the stored string, None for an absent key, a failure for a lost round trip or a key of another kind |
| Store.RedisServer.StringSet | src/catalog-api/RedisService.cs:135 | SET key value EX ttl replaces whatever the key held |
| Store.RedisServer.ListLeftPush | src/history-func/HistoryStoreService.cs:59 | LPUSH puts the value at the head of the list (creating it), and is refused on another kind |
| Store.RedisServer.ListTrim | src/history-func/HistoryStoreService.cs:60 | LTRIM keeps Range of the list, and deletes the key when the range is empty |
| Store.RedisServer.ListRange | src/history-func/HistoryStoreService.cs:43 | LRANGE returns Range of the list, with an absent key read as empty |
| Store.RangeAll | src/history-func/HistoryStoreService.cs:43 | LRANGE 0 -1 is the whole list |
| Store.RangeFirst | src/history-func/HistoryStoreService.cs:60 | LTRIM 0 (n-1) keeps the first n elements |
| Store.RedisServer.HashSet | src/catalog-api/RedisService.cs:238 | HSET sets the fields left to right over the old hash, and is refused on another kind |
| Store.RedisServer.StreamAdd | src/catalog-api/RedisService.cs:158 | XADD appends the entry; an empty entry is refused before any round trip |
| Store.RedisServer.IndexList | src/catalog-api/RedisService.cs:198-199 | FT._LIST gives the names of the existing indexes |
| Store.RedisServer.DropIndex | src/catalog-api/RedisService.cs:205 | FT.DROPINDEX removes the index and leaves the keyspace alone |
| Store.RedisServer.CreateIndex | src/catalog-api/RedisService.cs:211-217 | FT.CREATE adds the index and is refused when the name is taken |
| Store.RedisServer.Search | src/catalog-api/RedisService.cs:271-276 | FT.SEARCH on an unknown index fails, and so does a KNN query whose blob is not 4 × DIM bytes of the queried vector field; otherwise the reply is the ranking function's answer to the query blob |
| Store.Connect | src/catalog-api/RedisService.cs:55-58 | one connect round trip; success gives a fresh handle on the server |

## Left out

- Connection and credential setup (`ConfigurationOptions.Parse`, `DefaultAzureCredential`, the `AZURE_REDIS_ENDPOINT` setting) is network I/O. It is reduced to one round trip that may be lost.
- Console logging is left out, like the vector-score text that is only printed (`1.0f - float.Parse(...)` formatted as F4): it is floating point that never reaches a result. The model keeps only the fact that a `vector_score` that does not parse makes the search fail.
- The expiry of cached entries is not modelled. The time to live is stored beside the value as the code hands it to Redis.
- Redis.ParseInt32: int.Parse's acceptance of trailing NUL characters, and culture-specific signs, are not modelled.
- Redis.RedisService.AddToStream: a `Dictionary` is modelled as its pairs in enumeration order, with distinct names as a precondition, which a dictionary guarantees by construction.
- SearchReply.ReplyHits: the total must be an integer reply. A bulk string of digits, which the `(int)` cast would also convert, is rejected.
- SearchReply.AsString: `(string)` on an array reply is taken as a failure in every case, including an array with a single element.
- The wire encoding of a null hash value (a product with a null title or description) is not modelled. The value is stored as `Null`.
- The ranking that KNN performs is the server's business. It is a function of the query blob alone, so the model does not relate the hits to the stored records.
- Embedding client construction (`GetAzureOpenAIEmbeddingClient`) is a flag of the service, `embeddingClientOk`: whether `new Uri` accepts the project URL is not modelled. The rebuild and the search check it where the code constructs the client, so its failure is a wrapped error at that point.
- Chat client construction (`GetAzureOpenAIChatClient`) is folded into the chat provider function. The code constructs that client once per request and calls it once, with nothing else in between that can fail or change state.
- AIFoundry.ChatRequest: the `ChatCompletion` the provider returns is passed through unexamined.
- GetHistory's branch for a null list cannot be taken, because `ListRangeAsync` returns an empty list for an absent key. The model has no such branch; whether the key is absent or the list is empty, the result is [].
- src/catalog-api/AIFoundryService.cs, src/catalog-api/AIEndpoints.cs, src/catalog-api/Endpoints/AIEndpoints.cs, src/cache-refresh-func/TokenService.cs and src/cache-refresh-func/BearerTokenHandler.cs are client factories, routing and token plumbing, and are not part of this model. The call in src/catalog-api/Endpoints/AIEndpoints.cs passes a list of strings where `GetChatCompletionsAsync` takes a list of `ProductSearchResult`. The model follows the callee's declared type.
- Concurrency is not modelled. Calls are sequential, as the awaited code is.
