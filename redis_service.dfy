/** The catalog's Redis adapter (RedisService): a cache with a configurable
    time to live, event streams, and the vector index over product records.
    The connection is made on first use and kept. The embedding provider is a
    function that may fail; the ranking FT.SEARCH performs is the server's
    business and is given as a function of the query vector. */
module Redis {
  import opened Common
  import opened Store
  import opened Models
  import opened SearchReply

  const DefaultTtlSeconds := 60
  const TtlSetting := "AZURE_REDIS_TTL_IN_SECONDS"
  const ProductsIndexName := "products_index"
  const RecordPrefix := "product_vector:"
  const VectorDim := 1536
  const IndexErrorMessage := "Error occurred while creating the vector index"
  const SearchErrorMessage := "Error occurred while performing vector search"
  const Int32Min := -0x8000_0000
  const Int32Max := 0x7fff_ffff

  /** The schema FT.CREATE declares: hashes under product_vector:, a sortable
      title, a description and a 1536-wide float32 cosine vector. */
  const ProductsIndex := IndexDef("HASH", [RecordPrefix],
    [ TextField("title", true),
      TextField("description", false),
      VectorField("embedding", "FLAT", "FLOAT32", VectorDim, "COSINE") ])

  // ---------------------------------------------------------------------------
  // Time to live

  /** char.IsWhiteSpace for the characters int.Parse skips: U+0009..U+000D and the space. */
  predicate IsWhiteSpace(c: char) { '\t' <= c <= '\r' || c == ' ' }

  predicate AllWhiteSpace(s: string) { forall i :: 0 <= i < |s| ==> IsWhiteSpace(s[i]) }

  function TrimStart(s: string): (r: string)
    ensures |r| <= |s| && r == s[|s| - |r|..]
    ensures forall i :: 0 <= i < |s| - |r| ==> IsWhiteSpace(s[i])
    ensures r != [] ==> !IsWhiteSpace(r[0])
    decreases |s|
  {
    if s != [] && IsWhiteSpace(s[0]) then TrimStart(s[1..]) else s
  }

  function TrimEnd(s: string): (r: string)
    ensures |r| <= |s| && r == s[..|r|]
    ensures forall i :: |r| <= i < |s| ==> IsWhiteSpace(s[i])
    ensures r != [] ==> !IsWhiteSpace(r[|r| - 1])
    decreases |s|
  {
    if s != [] && IsWhiteSpace(s[|s| - 1]) then TrimEnd(s[..|s| - 1]) else s
  }

  /** int.Parse with its default styles: optional white space, an optional
      sign, at least one decimal digit, optional white space, and a value in
      the 32-bit range. None stands for its FormatException and
      OverflowException. */
  function ParseInt32(s: string): (r: Option<int>)
    ensures r.Some? ==> Int32Min <= r.value <= Int32Max
  {
    ParseSigned(TrimEnd(TrimStart(s)))
  }

  /** The part of int.Parse after the white space: an optional sign and
      the digits. */
  function ParseSigned(t: string): (r: Option<int>)
    ensures r.Some? ==> Int32Min <= r.value <= Int32Max
  {
    var signed := |t| > 0 && (t[0] == '-' || t[0] == '+');
    var digits := if signed then t[1..] else t;
    if digits == [] || !AllDigits(digits) then None
    else
      var v: int := if signed && t[0] == '-' then -(DigitsValue(digits) as int) else DigitsValue(digits);
      if Int32Min <= v <= Int32Max then Some(v) else None
  }

  /** The expiry handed to SET, from the AZURE_REDIS_TTL_IN_SECONDS setting:
      the parsed number of seconds, or 60 for a missing, empty, unparsable or
      non-positive setting. */
  function TTL(setting: Option<string>): (seconds: int)
    ensures 0 < seconds <= Int32Max
    ensures setting == None || setting == Some("") ==> seconds == DefaultTtlSeconds
    ensures seconds == DefaultTtlSeconds || (setting.Some? && ParseInt32(setting.value) == Some(seconds))
  {
    if setting == None || setting.value == "" then DefaultTtlSeconds
    else
      match ParseInt32(setting.value)
      case Some(n) => if n > 0 then n else DefaultTtlSeconds
      case None => DefaultTtlSeconds
  }

  lemma {:induction false} TrimStartPadding(pre: string, x: string)
    requires AllWhiteSpace(pre)
    requires x == [] || !IsWhiteSpace(x[0])
    ensures TrimStart(pre + x) == x
    decreases |pre|
  {
    if pre == [] {
      assert pre + x == x;
    } else {
      assert (pre + x)[1..] == pre[1..] + x;
      TrimStartPadding(pre[1..], x);
    }
  }

  lemma {:induction false} TrimEndPadding(x: string, post: string)
    requires AllWhiteSpace(post)
    requires x == [] || !IsWhiteSpace(x[|x| - 1])
    ensures TrimEnd(x + post) == x
    decreases |post|
  {
    if post == [] {
      assert x + post == x;
    } else {
      var p := post[..|post| - 1];
      assert (x + post)[..|x + post| - 1] == x + p;
      TrimEndPadding(x, p);
    }
  }

  /** The sign and digits left once the padding is trimmed. */
  lemma TrimmedPadded(pre: string, core: string, post: string)
    requires AllWhiteSpace(pre) && AllWhiteSpace(post)
    requires |core| >= 1 && !IsWhiteSpace(core[0]) && !IsWhiteSpace(core[|core| - 1])
    ensures TrimEnd(TrimStart(pre + core + post)) == core
  {
    assert pre + core + post == pre + (core + post);
    TrimStartPadding(pre, core + post);
    TrimEndPadding(core, post);
  }

  lemma SignedDigits(sign: string, d: string)
    requires sign == "" || sign == "+" || sign == "-"
    requires |d| >= 1 && AllDigits(d)
    ensures ParseSigned(sign + d) ==
              var v: int := if sign == "-" then -(DigitsValue(d) as int) else DigitsValue(d);
              if Int32Min <= v <= Int32Max then Some(v) else None
  {
    if sign == "" {
      assert sign + d == d;
      UnsignedDigits(d);
    } else if sign == "+" {
      PlusDigits(d);
    } else {
      MinusDigits(d);
    }
  }

  lemma PlusDigits(d: string)
    requires |d| >= 1 && AllDigits(d)
    ensures ParseSigned("+" + d) == if DigitsValue(d) <= Int32Max then Some(DigitsValue(d) as int) else None
  {
    var t := "+" + d;
    assert t[0] == '+' && t[1..] == d;
  }

  lemma MinusDigits(d: string)
    requires |d| >= 1 && AllDigits(d)
    ensures ParseSigned("-" + d) == if Int32Min <= -(DigitsValue(d) as int) then Some(-(DigitsValue(d) as int)) else None
  {
    var t := "-" + d;
    assert t[0] == '-' && t[1..] == d;
  }

  lemma UnsignedDigits(d: string)
    requires |d| >= 1 && AllDigits(d)
    ensures ParseSigned(d) == if DigitsValue(d) <= Int32Max then Some(DigitsValue(d) as int) else None
  {
    assert IsDigit(d[0]);
  }

  /** What a padded, optionally signed string of digits reads as, leading
      zeros included. */
  lemma ParsePadded(pre: string, sign: string, d: string, post: string)
    requires AllWhiteSpace(pre) && AllWhiteSpace(post)
    requires sign == "" || sign == "+" || sign == "-"
    requires |d| >= 1 && AllDigits(d)
    ensures ParseInt32(pre + sign + d + post) ==
              var v: int := if sign == "-" then -(DigitsValue(d) as int) else DigitsValue(d);
              if Int32Min <= v <= Int32Max then Some(v) else None
  {
    SignedCore(sign, d);
    Regroup(pre, sign, d, post);
    TrimmedPadded(pre, sign + d, post);
    SignedDigits(sign, d);
  }

  /** A sign and digits neither start nor end with white space. */
  lemma SignedCore(sign: string, d: string)
    requires sign == "" || sign == "+" || sign == "-"
    requires |d| >= 1 && AllDigits(d)
    ensures |sign + d| >= 1 && !IsWhiteSpace((sign + d)[0]) && !IsWhiteSpace((sign + d)[|sign + d| - 1])
  {
    assert IsDigit(d[0]) && IsDigit(d[|d| - 1]);
    assert (sign + d)[|sign + d| - 1] == d[|d| - 1];
  }

  lemma Regroup(a: string, b: string, c: string, e: string)
    ensures a + b + c + e == a + (b + c) + e
  {
  }

  /** A positive number that fits in 32 bits, written with any number of
      leading zeros, padded with white space and optionally preceded by '+',
      is the time to live. */
  lemma TtlAcceptsDecimal(pre: string, sign: string, d: string, post: string)
    requires AllWhiteSpace(pre) && AllWhiteSpace(post)
    requires sign == "" || sign == "+"
    requires |d| >= 1 && AllDigits(d) && 0 < DigitsValue(d) <= Int32Max
    ensures TTL(Some(pre + sign + d + post)) == DigitsValue(d)
  {
    ParsePadded(pre, sign, d, post);
  }

  /** Zero and negative numbers fall back to 60 seconds. */
  lemma TtlRejectsNonPositive(pre: string, sign: string, d: string, post: string)
    requires AllWhiteSpace(pre) && AllWhiteSpace(post)
    requires |d| >= 1 && AllDigits(d)
    requires sign == "-" || (DigitsValue(d) == 0 && (sign == "" || sign == "+"))
    ensures TTL(Some(pre + sign + d + post)) == DefaultTtlSeconds
  {
    ParsePadded(pre, sign, d, post);
  }

  /** A number beyond the 32-bit range (int.Parse overflows) falls back to 60 seconds. */
  lemma TtlRejectsOverflow(pre: string, sign: string, d: string, post: string)
    requires AllWhiteSpace(pre) && AllWhiteSpace(post)
    requires sign == "" || sign == "+"
    requires |d| >= 1 && AllDigits(d) && DigitsValue(d) > Int32Max
    ensures TTL(Some(pre + sign + d + post)) == DefaultTtlSeconds
  {
    ParsePadded(pre, sign, d, post);
  }

  /** A character that is neither white space, a sign nor a digit anywhere in
      the setting makes int.Parse fail, so the time to live is 60 seconds. */
  lemma TtlRejectsForeign(s: string, i: nat)
    requires i < |s|
    requires !IsWhiteSpace(s[i]) && !IsDigit(s[i]) && s[i] != '+' && s[i] != '-'
    ensures TTL(Some(s)) == DefaultTtlSeconds
  {
    var u := TrimStart(s);
    var k := |s| - |u|;
    assert i >= k;
    assert u[i - k] == s[i];
    var t := TrimEnd(u);
    assert i - k < |t|;
    assert t[i - k] == s[i];
    var signed := |t| > 0 && (t[0] == '-' || t[0] == '+');
    if signed {
      assert t[1..][i - k - 1] == s[i];
    }
  }

  // ---------------------------------------------------------------------------
  // Embedding bytes

  type Embedding = seq<Float32>

  /** The bytes Buffer.BlockCopy lays out: each float's four bytes, float after float. */
  function EmbeddingBytes(e: Embedding): (r: seq<bv8>)
    ensures |r| == 4 * |e|
  {
    if e == [] then [] else EmbeddingBytes(e[..|e| - 1]) + e[|e| - 1]
  }

  /** A blob read back four bytes at a time. */
  function BlobFloats(b: seq<bv8>): (r: Embedding)
    requires |b| % 4 == 0
    ensures |r| == |b| / 4
  {
    if b == [] then [] else BlobFloats(b[..|b| - 4]) + [b[|b| - 4..]]
  }

  /** The blob of an embedding reads back as that embedding. */
  lemma {:induction false} BlobOfEmbedding(e: Embedding)
    ensures BlobFloats(EmbeddingBytes(e)) == e
  {
    if e != [] {
      var b := EmbeddingBytes(e);
      var front := e[..|e| - 1];
      assert b[..|b| - 4] == EmbeddingBytes(front);
      assert b[|b| - 4..] == e[|e| - 1];
      BlobOfEmbedding(front);
      assert front + [e[|e| - 1]] == e;
    }
  }

  /** Every blob whose length is a multiple of four is the blob of exactly one embedding. */
  lemma {:induction false} EmbeddingOfBlob(b: seq<bv8>)
    requires |b| % 4 == 0
    ensures EmbeddingBytes(BlobFloats(b)) == b
  {
    if b != [] {
      var e := BlobFloats(b);
      assert e[..|e| - 1] == BlobFloats(b[..|b| - 4]);
      EmbeddingOfBlob(b[..|b| - 4]);
      assert b[..|b| - 4] + b[|b| - 4..] == b;
    }
  }

  /** EmbeddingToByteArray: a fresh array of 4 bytes per float, filled with
      the floats' bytes in order. */
  method EmbeddingToByteArray(embedding: Embedding) returns (embeddingBytes: array<bv8>)
    ensures fresh(embeddingBytes)
    ensures embeddingBytes.Length == 4 * |embedding|
    ensures embeddingBytes[..] == EmbeddingBytes(embedding)
  {
    embeddingBytes := new bv8[4 * |embedding|];
    var k := 0;
    while k < |embedding|
      invariant 0 <= k <= |embedding|
      invariant embeddingBytes[..4 * k] == EmbeddingBytes(embedding[..k])
    {
      var f := embedding[k];
      embeddingBytes[4 * k] := f[0];
      embeddingBytes[4 * k + 1] := f[1];
      embeddingBytes[4 * k + 2] := f[2];
      embeddingBytes[4 * k + 3] := f[3];
      assert embedding[..k + 1][..k] == embedding[..k];
      assert embeddingBytes[..4 * k + 4] == embeddingBytes[..4 * k] + f;
      k := k + 1;
    }
    assert embedding[..k] == embedding;
    assert embeddingBytes[..] == embeddingBytes[..4 * k];
  }

  // ---------------------------------------------------------------------------
  // Product records

  /** The text sent to the embedding provider: "{Title} - {Description}". */
  function EmbedText(p: VectorProduct): string
  {
    TextOrEmpty(p.title) + " - " + TextOrEmpty(p.description)
  }

  /** "product_vector:{Id}" */
  function RecordKey(id: string): string
  {
    RecordPrefix + id
  }

  /** Distinct products get distinct records, and every record key lies
      under the index's prefix. */
  lemma RecordKeyInjective(a: string, b: string)
    ensures RecordPrefix <= RecordKey(a)
    ensures RecordKey(a) == RecordKey(b) ==> a == b
  {
    if RecordKey(a) == RecordKey(b) {
      assert a == RecordKey(a)[|RecordPrefix|..];
      assert b == RecordKey(b)[|RecordPrefix|..];
    }
  }

  /** A nullable string as a RedisValue. */
  function ValueOf(s: Option<string>): RedisValue
  {
    if s.Some? then Text(s.value) else Null
  }

  /** The hash entries written for a product. */
  function RecordFields(p: VectorProduct, blob: seq<bv8>): seq<NameValue>
  {
    [NameValue("title", ValueOf(p.title)), NameValue("description", ValueOf(p.description)), NameValue("embedding", Blob(blob))]
  }

  /** The embedding the provider returns for a product (empty when it fails;
      the rebuild then stops before writing). */
  function EmbeddingOf(embed: string -> Result<Embedding>, p: VectorProduct): Embedding
  {
    var e := embed(EmbedText(p));
    if e.Ok? then e.value else []
  }

  /** The HSET of one product's record: its three fields set over whatever
      the hash held (SetRecordFields shows this is HSET of RecordFields). */
  function WriteRecord(ks: Keyspace, p: VectorProduct, blob: seq<bv8>): Keyspace
  {
    var key := RecordKey(p.id);
    ks[key := Hash(HashAt(ks, key)["title" := ValueOf(p.title)]["description" := ValueOf(p.description)]["embedding" := Blob(blob)])]
  }

  /** The keyspace once the rebuild loop has written the records of the
      first n products, in order. */
  function Populate(ks: Keyspace, products: seq<VectorProduct>, embed: string -> Result<Embedding>, n: nat): Keyspace
    requires n <= |products|
  {
    if n == 0 then ks
    else WriteRecord(Populate(ks, products, embed, n - 1), products[n - 1], EmbeddingBytes(EmbeddingOf(embed, products[n - 1])))
  }

  /** Whether the rebuild loop gets through the first n products: the
      provider embeds each one and its record key held a hash or nothing
      (CanPopulateMeaning states this for every position). */
  predicate CanPopulate(ks: Keyspace, products: seq<VectorProduct>, embed: string -> Result<Embedding>, n: nat)
    requires n <= |products|
  {
    n == 0 ||
    (CanPopulate(ks, products, embed, n - 1) &&
     embed(EmbedText(products[n - 1])).Ok? && HashOrAbsent(ks, RecordKey(products[n - 1].id)))
  }

  lemma {:induction false} CanPopulateMeaning(ks: Keyspace, products: seq<VectorProduct>, embed: string -> Result<Embedding>, n: nat)
    requires n <= |products|
    ensures CanPopulate(ks, products, embed, n) <==>
              forall i :: 0 <= i < n ==> embed(EmbedText(products[i])).Ok? && HashOrAbsent(ks, RecordKey(products[i].id))
  {
    if n > 0 {
      CanPopulateMeaning(ks, products, embed, n - 1);
    }
  }

  lemma SetRecordFields(m: map<string, RedisValue>, p: VectorProduct, blob: seq<bv8>)
    ensures SetFields(m, RecordFields(p, blob)) ==
              m["title" := ValueOf(p.title)]["description" := ValueOf(p.description)]["embedding" := Blob(blob)]
  {
    var f := RecordFields(p, blob);
    var m1 := m["title" := ValueOf(p.title)];
    var m2 := m1["description" := ValueOf(p.description)];
    var m3 := m2["embedding" := Blob(blob)];
    assert f[1..][1..][1..] == [];
    assert SetFields(m3, []) == m3;
    assert SetFields(m2, [NameValue("embedding", Blob(blob))]) == m3;
    assert f[1..][1..] == [NameValue("embedding", Blob(blob))];
    assert SetFields(m1, f[1..]) == m3;
    assert f[1..] == [NameValue("description", ValueOf(p.description)), NameValue("embedding", Blob(blob))];
  }

  /** A record entry: a hash whose title, description and embedding fields
      are those of the product and the blob. */
  predicate RecordEntry(e: Entry, p: VectorProduct, blob: seq<bv8>)
  {
    && e.Hash?
    && "title" in e.fields && e.fields["title"] == ValueOf(p.title)
    && "description" in e.fields && e.fields["description"] == ValueOf(p.description)
    && "embedding" in e.fields && e.fields["embedding"] == Blob(blob)
  }

  /** One HSET of a record: the record's key then holds the record. */
  lemma WriteRecordFields(ks: Keyspace, p: VectorProduct, blob: seq<bv8>)
    ensures RecordKey(p.id) in WriteRecord(ks, p, blob)
    ensures RecordEntry(WriteRecord(ks, p, blob)[RecordKey(p.id)], p, blob)
  {
  }

  /** One HSET of a record leaves every other key as it was. */
  lemma WriteRecordOthers(ks: Keyspace, p: VectorProduct, blob: seq<bv8>, key: string)
    requires key != RecordKey(p.id)
    ensures key in WriteRecord(ks, p, blob) <==> key in ks
    ensures key in ks ==> WriteRecord(ks, p, blob)[key] == ks[key]
  {
  }

  /** A product's record is a hash holding the title, the description and a
      blob of 4 bytes per embedding float of the LAST product with that id
      (a later duplicate overwrites an earlier one). */
  lemma {:induction false} PopulateWritesRecord(ks: Keyspace, products: seq<VectorProduct>, embed: string -> Result<Embedding>, n: nat, i: nat)
    requires i < n <= |products|
    requires forall j :: i < j < n ==> products[j].id != products[i].id
    ensures RecordKey(products[i].id) in Populate(ks, products, embed, n)
    ensures RecordEntry(Populate(ks, products, embed, n)[RecordKey(products[i].id)], products[i], EmbeddingBytes(EmbeddingOf(embed, products[i])))
  {
    if i == n - 1 {
      PopulateLast(ks, products, embed, n);
    } else {
      PopulateWritesRecord(ks, products, embed, n - 1, i);
      RecordKeyInjective(products[n - 1].id, products[i].id);
      PopulateSkips(ks, products, embed, n, RecordKey(products[i].id));
    }
  }

  /** The n-th write leaves the n-th product's record at its key. */
  lemma PopulateLast(ks: Keyspace, products: seq<VectorProduct>, embed: string -> Result<Embedding>, n: nat)
    requires 0 < n <= |products|
    ensures RecordKey(products[n - 1].id) in Populate(ks, products, embed, n)
    ensures RecordEntry(Populate(ks, products, embed, n)[RecordKey(products[n - 1].id)], products[n - 1],
                        EmbeddingBytes(EmbeddingOf(embed, products[n - 1])))
  {
    WriteRecordFields(Populate(ks, products, embed, n - 1), products[n - 1], EmbeddingBytes(EmbeddingOf(embed, products[n - 1])));
  }

  /** The n-th write leaves every other key as the first n - 1 left it. */
  lemma PopulateSkips(ks: Keyspace, products: seq<VectorProduct>, embed: string -> Result<Embedding>, n: nat, key: string)
    requires 0 < n <= |products|
    requires key != RecordKey(products[n - 1].id)
    ensures key in Populate(ks, products, embed, n) <==> key in Populate(ks, products, embed, n - 1)
    ensures key in Populate(ks, products, embed, n - 1) ==>
              Populate(ks, products, embed, n)[key] == Populate(ks, products, embed, n - 1)[key]
  {
    WriteRecordOthers(Populate(ks, products, embed, n - 1), products[n - 1], EmbeddingBytes(EmbeddingOf(embed, products[n - 1])), key);
  }

  /** Keys that are no product's record are left as they were. */
  lemma {:induction false} PopulateOthers(ks: Keyspace, products: seq<VectorProduct>, embed: string -> Result<Embedding>, n: nat, key: string)
    requires n <= |products|
    requires forall i :: 0 <= i < n ==> RecordKey(products[i].id) != key
    ensures key in Populate(ks, products, embed, n) <==> key in ks
    ensures key in ks ==> Populate(ks, products, embed, n)[key] == ks[key]
  {
    if n > 0 {
      PopulateOthers(ks, products, embed, n - 1, key);
    }
  }

  /** A key that held a hash still holds one after the rebuild, so an index
      over it still covers it (old records outlive a dropped index). */
  lemma {:induction false} PopulateKeepsHashes(ks: Keyspace, products: seq<VectorProduct>, embed: string -> Result<Embedding>, n: nat, key: string)
    requires n <= |products|
    requires key in ks && ks[key].Hash?
    ensures key in Populate(ks, products, embed, n) && Populate(ks, products, embed, n)[key].Hash?
  {
    if n > 0 {
      PopulateKeepsHashes(ks, products, embed, n - 1, key);
    }
  }

  /** When every record key was free or a hash, the keys a hash command may
      touch are the same before and after the rebuild. */
  lemma {:induction false} PopulateKeepsKind(ks: Keyspace, products: seq<VectorProduct>, embed: string -> Result<Embedding>, n: nat, key: string)
    requires n <= |products|
    requires CanPopulate(ks, products, embed, n)
    ensures HashOrAbsent(Populate(ks, products, embed, n), key) <==> HashOrAbsent(ks, key)
  {
    if n > 0 {
      PopulateKeepsKind(ks, products, embed, n - 1, key);
    }
  }

  /** One more product in the rebuild loop: the loop can go on exactly when
      the product can be embedded and its key, as the earlier records left
      it, is free or a hash; otherwise the whole rebuild cannot succeed. */
  lemma PopulateStep(ks: Keyspace, products: seq<VectorProduct>, embed: string -> Result<Embedding>, i: nat)
    requires i < |products|
    requires CanPopulate(ks, products, embed, i)
    ensures var ok := embed(EmbedText(products[i])).Ok? && HashOrAbsent(Populate(ks, products, embed, i), RecordKey(products[i].id));
            && (ok ==> CanPopulate(ks, products, embed, i + 1))
            && (!ok ==> !CanPopulate(ks, products, embed, i + 1) && !CanPopulate(ks, products, embed, |products|))
  {
    PopulateKeepsKind(ks, products, embed, i, RecordKey(products[i].id));
    if !CanPopulate(ks, products, embed, i + 1) {
      CanPopulateMeaning(ks, products, embed, i + 1);
      CanPopulateMeaning(ks, products, embed, |products|);
    }
  }

  /** After a rebuild a product's record is covered by the products index
      exactly when the last product with its id was embedded with DIM floats
      (its HSET is the one that stays). */
  lemma RecordCovered(ks: Keyspace, products: seq<VectorProduct>, embed: string -> Result<Embedding>, i: nat, j: nat)
    requires i <= j < |products| && products[j].id == products[i].id
    requires forall k :: j < k < |products| ==> products[k].id != products[j].id
    ensures Covers(ProductsIndex, Populate(ks, products, embed, |products|), RecordKey(products[i].id)) <==>
              |EmbeddingOf(embed, products[j])| == VectorDim
  {
    var rebuilt := Populate(ks, products, embed, |products|);
    var key := RecordKey(products[i].id);
    PopulateWritesRecord(ks, products, embed, |products|, j);
    RecordKeyInjective(products[i].id, products[i].id);
    assert ProductsIndex.prefixes[0] <= key;
    var vector := ProductsIndex.schema[2];
    assert vector.VectorField? && vector.name == "embedding" && vector.dim == VectorDim;
    assert rebuilt[key].fields["embedding"] == Blob(EmbeddingBytes(EmbeddingOf(embed, products[j])));
  }

  /** When the provider returns DIM floats for every product, a rebuild
      leaves every product's record covered by the products index, and every
      hash the index covered before stays covered. */
  lemma RebuildCoverage(ks: Keyspace, products: seq<VectorProduct>, embed: string -> Result<Embedding>)
    requires forall i :: 0 <= i < |products| ==> |EmbeddingOf(embed, products[i])| == VectorDim
    ensures forall i :: 0 <= i < |products| ==>
              Covers(ProductsIndex, Populate(ks, products, embed, |products|), RecordKey(products[i].id))
    ensures forall key :: Covers(ProductsIndex, ks, key) ==> Covers(ProductsIndex, Populate(ks, products, embed, |products|), key)
  {
    forall i | 0 <= i < |products|
      ensures Covers(ProductsIndex, Populate(ks, products, embed, |products|), RecordKey(products[i].id))
    {
      var j := LastWithId(products, i);
      RecordCovered(ks, products, embed, i, j);
    }
    forall key | Covers(ProductsIndex, ks, key)
      ensures Covers(ProductsIndex, Populate(ks, products, embed, |products|), key)
    {
      if i :| 0 <= i < |products| && RecordKey(products[i].id) == key {
        var j := LastWithId(products, i);
        RecordCovered(ks, products, embed, i, j);
      } else {
        PopulateOthers(ks, products, embed, |products|, key);
      }
    }
  }

  /** A KNN query on products_index is taken exactly when the query
      embedding has DIM floats. */
  lemma ProductsQueryFits(e: Embedding)
    ensures QueryFits(ProductsIndex, "embedding", EmbeddingBytes(e)) <==> |e| == VectorDim
  {
    var vector := ProductsIndex.schema[2];
    assert vector.VectorField? && vector.name == "embedding" && vector.dim == VectorDim;
    if QueryFits(ProductsIndex, "embedding", EmbeddingBytes(e)) {
      var j :| 0 <= j < |ProductsIndex.schema| && ProductsIndex.schema[j].VectorField? && ProductsIndex.schema[j].name == "embedding" &&
               |EmbeddingBytes(e)| == 4 * ProductsIndex.schema[j].dim;
      assert j == 2;
    }
  }

  /** The last position holding the same id as position i. */
  lemma {:induction false} LastWithId(products: seq<VectorProduct>, i: nat) returns (j: nat)
    requires i < |products|
    ensures i <= j < |products| && products[j].id == products[i].id
    ensures forall k :: j < k < |products| ==> products[k].id != products[j].id
    decreases |products| - i
  {
    if exists k :: i < k < |products| && products[k].id == products[i].id {
      var k :| i < k < |products| && products[k].id == products[i].id;
      j := LastWithId(products, k);
    } else {
      j := i;
    }
  }

  // ---------------------------------------------------------------------------
  // The cache convention

  /** What Get reports for a key when the store answers: the stored string,
      with an empty string (also RedisValue.Null, or a value of another
      kind, which throws) read as absent. */
  function CachedValue(ks: Keyspace, key: string): Option<string>
  {
    if key in ks && ks[key].Str? && ks[key].value != "" then Some(ks[key].value) else None
  }

  /** A SET is seen by the next GET of that key exactly when the value is not
      empty, and it is seen by no other key. */
  lemma CachedAfterSet(ks: Keyspace, key: string, value: string, ttl: int, other: string)
    ensures CachedValue(ks[key := Str(value, ttl)], key) == (if value == "" then None else Some(value))
    ensures other != key ==> CachedValue(ks[key := Str(value, ttl)], other) == CachedValue(ks, other)
  {
  }

  /** The pairs of a Dictionary<string, string?> in enumeration order. */
  predicate DistinctNames(data: seq<(string, Option<string>)>)
  {
    forall i, j :: 0 <= i < j < |data| ==> data[i].0 != data[j].0
  }

  /** The stream entry built from the pairs. */
  function StreamEntryOf(data: seq<(string, Option<string>)>): (r: seq<NameValue>)
    ensures |r| == |data|
    ensures forall i :: 0 <= i < |data| ==> r[i].name == data[i].0 && r[i].value == ValueOf(data[i].1)
    decreases |data|
  {
    if data == [] then [] else StreamEntryOf(data[..|data| - 1]) + [NameValue(data[|data| - 1].0, ValueOf(data[|data| - 1].1))]
  }

  /** The round trips ResetIndex makes from round trip n: FT._LIST, then
      FT.DROPINDEX when the index is listed, then FT.CREATE, the first
      failure stopping it. */
  ghost function ResetTrips(server: RedisServer, listed: bool, n: nat): nat
  {
    if server.fault(n) then 1 else if !listed then 2 else if server.fault(n + 1) then 2 else 3
  }

  // ---------------------------------------------------------------------------
  // The service

  class RedisService {
    var database: Database?
    const server: RedisServer
    const ttlSeconds: int
    const embed: string -> Result<Embedding>
    /** Whether GetAzureOpenAIEmbeddingClient returns a client; it throws when
        the project URL is not an absolute URI. */
    const embeddingClientOk: bool

    ghost predicate Valid()
      reads this
    {
      database != null ==> database.server == server
    }

    /** Whether a call that needs one command is answered, starting at round
        trip n: connecting first when no handle is held yet. */
    ghost predicate Served(connected: bool, n: nat)
    {
      if connected then !server.fault(n) else !server.fault(n) && !server.fault(n + 1)
    }

    constructor (configuration: Config, server: RedisServer, embed: string -> Result<Embedding>, embeddingClientOk: bool)
      ensures Valid() && database == null
      ensures this.server == server && this.embed == embed && this.embeddingClientOk == embeddingClientOk
      ensures ttlSeconds == TTL(Setting(configuration, TtlSetting))
    {
      database := null;
      this.server := server;
      this.embed := embed;
      this.embeddingClientOk := embeddingClientOk;
      ttlSeconds := TTL(Setting(configuration, TtlSetting));
    }

    /** GetDatabaseAsync: connect on first use and keep the handle; a held
        handle is returned without any round trip. */
    method GetDatabase() returns (r: Result<Database>)
      requires Valid()
      modifies this`database, server`trips
      ensures Valid()
      ensures old(database) != null ==> r == Ok(old(database)) && database == old(database) && server.trips == old(server.trips)
      ensures old(database) == null ==> server.trips == old(server.trips) + 1 && (r.Ok? <==> !server.fault(old(server.trips)))
      ensures old(database) == null && r.Ok? ==> fresh(r.value) && database == r.value
      ensures r.Ok? ==> r.value.server == server
      ensures r.Err? ==> r.error == ConnectionFailed && database == null
    {
      if database != null {
        return Ok(database);
      }
      r := Connect(server);
      if r.Ok? {
        database := r.value;
      }
    }

    /** Get: never fails; a lost round trip, a value of another kind, a
        missing key and an empty string all read as None. */
    method Get(key: string) returns (r: Option<string>)
      requires Valid()
      modifies this`database, server`trips
      ensures Valid()
      ensures old(database) != null ==> database == old(database)
      ensures database != null <==> HandleAfter(server, old(database) != null, old(server.trips))
      ensures old(database) == null && database != null ==> fresh(database)
      ensures server.trips == TripsAfter(server, old(database) != null, old(server.trips), 1)
      ensures r == if Served(old(database) != null, old(server.trips)) then CachedValue(server.keyspace, key) else None
      ensures server.Reliable() ==> r == CachedValue(server.keyspace, key)
      ensures server.Unreachable() ==> r == None
    {
      var db := GetDatabase();
      if db.Err? {
        return None;
      }
      var value := db.value.server.StringGet(key);
      if value.Err? {
        return None;
      }
      var stringValue := TextOrEmpty(value.value);
      if stringValue == "" {
        return None;
      }
      return Some(stringValue);
    }

    /** Set: SET key value EX ttl; connection and command failures propagate. */
    method Set(key: string, value: string) returns (r: Result<Unit>)
      requires Valid()
      modifies this`database, server`trips, server`keyspace
      ensures Valid()
      ensures old(database) != null ==> database == old(database)
      ensures database != null <==> HandleAfter(server, old(database) != null, old(server.trips))
      ensures old(database) == null && database != null ==> fresh(database)
      ensures server.trips == TripsAfter(server, old(database) != null, old(server.trips), 1)
      ensures r.Ok? <==> Served(old(database) != null, old(server.trips))
      ensures r.Ok? ==> server.keyspace == old(server.keyspace)[key := Str(value, ttlSeconds)]
      ensures r.Err? ==> r.error == ConnectionFailed && server.keyspace == old(server.keyspace)
    {
      var db := GetDatabase();
      if db.Err? {
        return Err(db.error);
      }
      r := db.value.server.StringSet(key, value, ttlSeconds);
    }

    /** AddToStream: one XADD entry with the dictionary's pairs in order (a
        null value becomes RedisValue.Null); an empty dictionary is refused
        by the client after connecting. */
    method AddToStream(streamName: string, data: seq<(string, Option<string>)>) returns (r: Result<Unit>)
      requires Valid()
      requires DistinctNames(data)
      modifies this`database, server`trips, server`keyspace
      ensures Valid()
      ensures old(database) != null ==> database == old(database)
      ensures database != null <==> HandleAfter(server, old(database) != null, old(server.trips))
      ensures old(database) == null && database != null ==> fresh(database)
      ensures server.trips == TripsAfter(server, old(database) != null, old(server.trips), if data == [] then 0 else 1)
      ensures data == [] ==> r.Err?
      ensures r.Ok? <==> data != [] && Served(old(database) != null, old(server.trips)) && StreamOrAbsent(old(server.keyspace), streamName)
      ensures r.Ok? ==> (server.keyspace ==
                old(server.keyspace)[streamName := Stream(StreamAt(old(server.keyspace), streamName) + [StreamEntryOf(data)])])
      ensures r.Err? ==> server.keyspace == old(server.keyspace)
    {
      var entries: seq<NameValue> := [];
      var i := 0;
      while i < |data|
        invariant 0 <= i <= |data|
        invariant entries == StreamEntryOf(data[..i])
      {
        var keyValuePair := data[i];
        assert data[..i + 1][..i] == data[..i];
        entries := entries + [NameValue(keyValuePair.0, ValueOf(keyValuePair.1))];
        i := i + 1;
      }
      assert data[..i] == data;
      var db := GetDatabase();
      if db.Err? {
        return Err(db.error);
      }
      r := db.value.server.StreamAdd(streamName, entries);
    }

    /** The first half of CreateProductsIndex: drop products_index if
        FT._LIST lists it, then create it. */
    method ResetIndex(database: Database) returns (r: Result<Unit>)
      requires database.server == server
      modifies server`trips, server`indexes
      ensures server.trips == old(server.trips) + ResetTrips(server, ProductsIndexName in old(server.indexes), old(server.trips))
      ensures r.Ok? ==> server.indexes == old(server.indexes)[ProductsIndexName := ProductsIndex]
      ensures r.Err? ==> server.indexes in {old(server.indexes), old(server.indexes) - {ProductsIndexName}}
      ensures server.Reliable() ==> r.Ok?
      ensures server.Unreachable() ==> r.Err? && server.indexes == old(server.indexes)
    {
      var existingIndexes := database.server.IndexList();
      if existingIndexes.Err? {
        return Err(existingIndexes.error);
      }
      if ProductsIndexName in existingIndexes.value {
        var dropped := database.server.DropIndex(ProductsIndexName);
        if dropped.Err? {
          return Err(dropped.error);
        }
      }
      r := database.server.CreateIndex(ProductsIndexName, ProductsIndex);
    }

    /** One pass of the rebuild loop: embed "{Title} - {Description}" and
        HSET the product's record. */
    method AddRecord(database: Database, product: VectorProduct) returns (r: Result<Unit>)
      requires database.server == server
      modifies server`trips, server`keyspace
      ensures server.trips == old(server.trips) + (if embed(EmbedText(product)).Ok? then 1 else 0)
      ensures r.Ok? <==> embed(EmbedText(product)).Ok? && !server.fault(old(server.trips)) &&
                         HashOrAbsent(old(server.keyspace), RecordKey(product.id))
      ensures r.Ok? ==> server.keyspace == WriteRecord(old(server.keyspace), product, EmbeddingBytes(EmbeddingOf(embed, product)))
      ensures r.Err? ==> server.keyspace == old(server.keyspace)
    {
      var textToEmbed := EmbedText(product);
      var embeddingResponse := embed(textToEmbed);
      if embeddingResponse.Err? {
        return Err(embeddingResponse.error);
      }
      var embeddingBytes := EmbeddingToByteArray(embeddingResponse.value);
      var key := RecordKey(product.id);
      var hash := RecordFields(product, embeddingBytes[..]);
      SetRecordFields(HashAt(server.keyspace, key), product, embeddingBytes[..]);
      r := database.server.HashSet(key, hash);
    }

    /** Pass i of the rebuild loop, seen against the records already
        written: it writes the next record, or fails where the rebuild cannot
        go on. */
    method AddNextRecord(database: Database, products: seq<VectorProduct>, i: nat, ghost ks0: Keyspace) returns (r: Result<Unit>)
      requires database.server == server
      requires i < |products|
      requires server.keyspace == Populate(ks0, products, embed, i) && CanPopulate(ks0, products, embed, i)
      modifies server`trips, server`keyspace
      ensures server.trips == old(server.trips) + (if embed(EmbedText(products[i])).Ok? then 1 else 0)
      ensures r.Ok? ==> server.keyspace == Populate(ks0, products, embed, i + 1) && CanPopulate(ks0, products, embed, i + 1)
      ensures r.Err? ==> server.keyspace == Populate(ks0, products, embed, i)
      ensures r.Err? && server.Reliable() ==>
                !CanPopulate(ks0, products, embed, i + 1) && !CanPopulate(ks0, products, embed, |products|)
      ensures server.Unreachable() ==> r.Err?
    {
      PopulateStep(ks0, products, embed, i);
      r := AddRecord(database, products[i]);
    }

    /** The rebuild loop: the products' records in order; the first failure
        stops the loop with the records before it written. n is how many
        records were written. */
    method WriteRecords(database: Database, products: seq<VectorProduct>) returns (r: Result<Unit>, ghost n: nat)
      requires database.server == server
      modifies server`trips, server`keyspace
      ensures n <= |products| && (r.Ok? <==> n == |products|)
      ensures server.trips == old(server.trips) + n + (if r.Err? && embed(EmbedText(products[n])).Ok? then 1 else 0)
      ensures server.keyspace == Populate(old(server.keyspace), products, embed, n)
      ensures CanPopulate(old(server.keyspace), products, embed, n)
      ensures r.Err? && server.Reliable() ==> !CanPopulate(old(server.keyspace), products, embed, |products|)
      ensures r.Err? && server.Reliable() ==> n < |products| && !CanPopulate(old(server.keyspace), products, embed, n + 1)
      ensures server.Unreachable() ==> n == 0
    {
      ghost var ks0 := server.keyspace;
      var i := 0;
      while i < |products|
        invariant 0 <= i <= |products|
        invariant server.keyspace == Populate(ks0, products, embed, i)
        invariant CanPopulate(ks0, products, embed, i)
        invariant server.trips == old(server.trips) + i
        invariant server.Unreachable() ==> i == 0
      {
        var written := AddNextRecord(database, products, i, ks0);
        if written.Err? {
          return Err(written.error), i;
        }
        i := i + 1;
      }
      return Ok(Unit), i;
    }

    /** A failed rebuild, from keyspace ks0 to ks, stopped after n records:
        the first n products were written, each one the loop could write,
        and on a reliable server with an embedding client product n is the
        first that cannot be written. */
    ghost predicate StoppedAfter(ks0: Keyspace, ks: Keyspace, products: seq<VectorProduct>, n: nat)
    {
      && n <= |products| && ks == Populate(ks0, products, embed, n) && CanPopulate(ks0, products, embed, n)
      && (server.Reliable() && embeddingClientOk ==> n < |products| && !CanPopulate(ks0, products, embed, n + 1))
    }

    /** CreateProductsIndex: reset products_index, get the embedding client,
        then write one record per product in order. Every failure is rethrown
        wrapped; what was done before it stays done. On a reliable server with
        a client, the records written end just before the first product that
        cannot be written. */
    method CreateProductsIndex(products: seq<VectorProduct>) returns (r: Result<Unit>)
      requires Valid()
      modifies this`database, server`trips, server`keyspace, server`indexes
      ensures Valid()
      ensures old(database) != null ==> database == old(database)
      ensures database != null <==> HandleAfter(server, old(database) != null, old(server.trips))
      ensures old(database) == null && database != null ==> fresh(database)
      ensures var first := CommandTrip(old(database) != null, old(server.trips));
              old(server.trips) <= server.trips <= first + ResetTrips(server, ProductsIndexName in old(server.indexes), first) + |products|
      ensures var first := CommandTrip(old(database) != null, old(server.trips));
              r.Ok? ==> server.trips == first + ResetTrips(server, ProductsIndexName in old(server.indexes), first) + |products|
      ensures r.Err? ==> r.error.Wrapped? && r.error.message == IndexErrorMessage
      ensures r.Ok? ==> embeddingClientOk
      ensures r.Ok? ==> CanPopulate(old(server.keyspace), products, embed, |products|)
      ensures r.Ok? ==> server.indexes == old(server.indexes)[ProductsIndexName := ProductsIndex]
      ensures r.Ok? ==> server.keyspace == Populate(old(server.keyspace), products, embed, |products|)
      ensures r.Err? ==> server.indexes in {old(server.indexes), old(server.indexes) - {ProductsIndexName},
                                            old(server.indexes)[ProductsIndexName := ProductsIndex]}
      ensures r.Err? ==> exists n :: StoppedAfter(old(server.keyspace), server.keyspace, products, n)
      ensures !embeddingClientOk ==> r.Err? && server.keyspace == old(server.keyspace)
      ensures server.Reliable() ==> (r.Ok? <==> embeddingClientOk && CanPopulate(old(server.keyspace), products, embed, |products|))
      ensures server.Unreachable() ==> r.Err? && server.keyspace == old(server.keyspace) && server.indexes == old(server.indexes)
    {
      var db := GetDatabase();
      if db.Err? {
        assert StoppedAfter(old(server.keyspace), server.keyspace, products, 0);
        return Err(Wrapped(IndexErrorMessage, db.error));
      }
      var reset := ResetIndex(db.value);
      if reset.Err? {
        assert StoppedAfter(old(server.keyspace), server.keyspace, products, 0);
        return Err(Wrapped(IndexErrorMessage, reset.error));
      }
      if !embeddingClientOk {
        assert StoppedAfter(old(server.keyspace), server.keyspace, products, 0);
        return Err(Wrapped(IndexErrorMessage, ClientFailed));
      }
      ghost var count: nat;
      var written;
      written, count := WriteRecords(db.value, products);
      if written.Err? {
        assert StoppedAfter(old(server.keyspace), server.keyspace, products, count);
        return Err(Wrapped(IndexErrorMessage, written.error));
      }
      return Ok(Unit);
    }

    /** SearchProducts: get the embedding client, embed the query, run the
        KNN search on products_index and parse the reply. Every failure, a
        missing index included, is rethrown wrapped; it never becomes an
        empty list. */
    method SearchProducts(query: string, knn: seq<bv8> -> RedisResult, floatParses: string -> bool) returns (r: Result<seq<string>>)
      requires Valid()
      modifies this`database, server`trips
      ensures Valid()
      ensures old(database) != null ==> database == old(database)
      ensures database != null <==> HandleAfter(server, old(database) != null, old(server.trips))
      ensures old(database) == null && database != null ==> fresh(database)
      ensures server.trips == TripsAfter(server, old(database) != null, old(server.trips), if embeddingClientOk && embed(query).Ok? then 1 else 0)
      ensures r.Err? ==> r.error.Wrapped? && r.error.message == SearchErrorMessage
      ensures r.Ok? ==> (embeddingClientOk && embed(query).Ok? && ProductsIndexName in server.indexes &&
                QueryFits(server.indexes[ProductsIndexName], "embedding", EmbeddingBytes(embed(query).value)) &&
                Ok(r.value) == ParseReply(knn(EmbeddingBytes(embed(query).value)), floatParses))
      ensures (|| !embeddingClientOk || embed(query).Err? || ProductsIndexName !in server.indexes
               || !QueryFits(server.indexes[ProductsIndexName], "embedding", EmbeddingBytes(embed(query).value))) ==> r.Err?
      ensures server.Reliable() && embeddingClientOk && embed(query).Ok? ==>
                (r.Ok? <==> ProductsIndexName in server.indexes &&
                            QueryFits(server.indexes[ProductsIndexName], "embedding", EmbeddingBytes(embed(query).value)) &&
                            WellFormedReply(knn(EmbeddingBytes(embed(query).value)), floatParses))
    {
      var db := GetDatabase();
      if db.Err? {
        return Err(Wrapped(SearchErrorMessage, db.error));
      }
      if !embeddingClientOk {
        return Err(Wrapped(SearchErrorMessage, ClientFailed));
      }
      var queryEmbeddingResponse := embed(query);
      if queryEmbeddingResponse.Err? {
        return Err(Wrapped(SearchErrorMessage, queryEmbeddingResponse.error));
      }
      var queryEmbeddingBytes := EmbeddingToByteArray(queryEmbeddingResponse.value);
      var searchResult := db.value.server.Search(ProductsIndexName, "embedding", queryEmbeddingBytes[..], knn);
      if searchResult.Err? {
        return Err(Wrapped(SearchErrorMessage, searchResult.error));
      }
      var results := ParseSearchReply(searchResult.value, floatParses);
      if results.Err? {
        return Err(Wrapped(SearchErrorMessage, results.error));
      }
      return results;
    }
  }

  /** The connection is made on first use and then kept: starting without a
      handle on a reliable server, two Gets make three round trips, one
      connect and two GETs, and the handle the first one makes is the one
      held afterwards. */
  method ConnectionKept(service: RedisService, first: string, second: string) returns (a: Option<string>, b: Option<string>)
    requires service.Valid() && service.database == null && service.server.Reliable()
    modifies service`database, service.server`trips
    ensures service.database != null && fresh(service.database)
    ensures service.server.trips == old(service.server.trips) + 3
    ensures a == CachedValue(service.server.keyspace, first) && b == CachedValue(service.server.keyspace, second)
  {
    a := service.Get(first);
    ghost var handle := service.database;
    b := service.Get(second);
    assert service.database == handle;
  }

  /** On a reliable server a non-empty value written with Set is what the
      next Get of that key returns, and no other key's reading changes. */
  method SetThenGet(service: RedisService, key: string, value: string, other: string) returns (got: Option<string>)
    requires service.Valid() && service.server.Reliable()
    requires value != ""
    modifies service`database, service.server`trips, service.server`keyspace
    ensures got == Some(value)
    ensures other != key ==> CachedValue(service.server.keyspace, other) == CachedValue(old(service.server.keyspace), other)
  {
    var written := service.Set(key, value);
    CachedAfterSet(old(service.server.keyspace), key, value, service.ttlSeconds, other);
    got := service.Get(key);
  }
}
