/** Shared vocabulary of the catalog core: optional values, results with the
    errors the services raise, configuration lookup, the abstract JSON codec,
    32-bit floats as raw bytes, and the few string operations the services
    use (decimal text, string.Join and its inverse). */
module Common {

  datatype Option<+T> = None | Some(value: T)

  /** The exceptions the core raises or lets through, as values. */
  datatype Error =
    | ConnectionFailed                        // the store could not be reached
    | WrongType(key: string)                  // WRONGTYPE: the key holds another kind of value
    | UnknownIndex(name: string)              // FT.DROPINDEX / FT.SEARCH on a missing index
    | IndexExists(name: string)               // FT.CREATE on an existing index
    | BadQueryVector(name: string)            // FT.SEARCH with a KNN blob the index's vector field cannot take
    | EmptyStreamEntry                        // XADD with no name/value pair
    | ProviderFailed                          // the embedding or chat provider failed
    | ClientFailed                            // the embedding client could not be constructed
    | MalformedJson                           // JsonException from deserialisation
    | MalformedReply                          // a cast, index or float.Parse failure on a search reply
    | MissingSetting(name: string)            // a required configuration value is null
    | Wrapped(message: string, inner: Error)  // new Exception(message, inner)

  datatype Result<+T> = Ok(value: T) | Err(error: Error) {
    predicate IsFailure() { Err? }
    function PropagateFailure<U>(): Result<U>
      requires Err?
    {
      Err(error)
    }
    function Extract(): T
      requires Ok?
    {
      value
    }
  }

  datatype Unit = Unit

  /** IConfiguration: a missing key reads as null. */
  type Config = map<string, string>

  function Setting(config: Config, name: string): (r: Option<string>)
    ensures r.Some? <==> name in config
    ensures r.Some? ==> r.value == config[name]
  {
    if name in config then Some(config[name]) else None
  }

  /** Text of a nullable string inside C# string interpolation: null prints nothing. */
  function TextOrEmpty(s: Option<string>): string
  {
    if s.Some? then s.value else ""
  }

  /** System.Text.Json for one type: serialisation always yields text;
      deserialisation yields a value, the JSON literal null (Ok(None)) or a
      JsonException (Err). The library itself is not modelled. */
  datatype Codec<!T> = Codec(encode: T -> string, decode: string -> Result<Option<T>>)

  /** The behaviour assumed of the JSON library: a serialised value is never
      the empty string and deserialises back to itself. */
  ghost predicate RoundTrips<T(!new)>(c: Codec<T>)
  {
    forall x: T :: c.encode(x) != "" && c.decode(c.encode(x)) == Ok(Some(x))
  }

  /** A float32 as its four bytes in memory order. */
  type Float32 = b: seq<bv8> | |b| == 4 witness [0, 0, 0, 0]

  // ---------------------------------------------------------------------------
  // Decimal text

  predicate IsDigit(c: char) { '0' <= c <= '9' }

  predicate AllDigits(s: string) { forall i :: 0 <= i < |s| ==> IsDigit(s[i]) }

  function DigitChar(d: nat): (c: char)
    requires d < 10
    ensures IsDigit(c)
  {
    (48 + d) as char
  }

  function DigitValue(c: char): (d: nat)
    requires IsDigit(c)
    ensures d < 10
  {
    c as int - 48
  }

  /** The value of a string of decimal digits, most significant first. */
  function DigitsValue(s: string): nat
    requires AllDigits(s)
  {
    if s == [] then 0 else DigitsValue(s[..|s| - 1]) * 10 + DigitValue(s[|s| - 1])
  }

  /** n.ToString() for a non-negative number. */
  function Decimal(n: nat): (s: string)
    ensures |s| >= 1 && AllDigits(s)
  {
    if n < 10 then [DigitChar(n)] else Decimal(n / 10) + [DigitChar(n % 10)]
  }

  /** i.ToString() for any integer, with the invariant-culture minus sign. */
  function IntText(i: int): string
  {
    if i < 0 then "-" + Decimal(-i) else Decimal(i)
  }

  lemma {:induction false} DecimalValue(n: nat)
    ensures DigitsValue(Decimal(n)) == n
  {
    var s := Decimal(n);
    if n >= 10 {
      DecimalValue(n / 10);
      assert s[..|s| - 1] == Decimal(n / 10);
    }
  }

  /** Decimal text is injective, so distinct numbers give distinct text. */
  lemma DecimalInjective(m: nat, n: nat)
    requires Decimal(m) == Decimal(n)
    ensures m == n
  {
    DecimalValue(m);
    DecimalValue(n);
  }

  // ---------------------------------------------------------------------------
  // string.Join and its inverse

  /** string.Join(sep, xs): the elements separated by sep, no trailing separator. */
  function Join(sep: string, xs: seq<string>): string
  {
    if |xs| == 0 then "" else if |xs| == 1 then xs[0] else xs[0] + sep + Join(sep, xs[1..])
  }

  /** Cutting a string at every occurrence of c (string.Split on one character). */
  function Split(s: string, c: char): (r: seq<string>)
    ensures |r| >= 1
  {
    if s == [] then [""]
    else
      var rest := Split(s[1..], c);
      if s[0] == c then [""] + rest else [[s[0]] + rest[0]] + rest[1..]
  }

  lemma {:induction false} SplitWithout(a: string, c: char)
    requires c !in a
    ensures Split(a, c) == [a]
  {
    if a != [] {
      SplitWithout(a[1..], c);
      assert [a[0]] + a[1..] == a;
    }
  }

  lemma {:induction false} SplitAt(a: string, b: string, c: char)
    requires c !in a
    ensures Split(a + [c] + b, c) == [a] + Split(b, c)
  {
    if a == [] {
      assert a + [c] + b == [c] + b;
      assert ([c] + b)[1..] == b;
    } else {
      var s := a + [c] + b;
      assert s[0] == a[0];
      assert s[1..] == a[1..] + [c] + b;
      SplitAt(a[1..], b, c);
      assert [a[0]] + a[1..] == a;
    }
  }

  /** Joining with a one-character separator that occurs in no element and
      splitting again gives back exactly the elements. */
  lemma {:induction false} SplitJoin(xs: seq<string>, c: char)
    requires |xs| >= 1
    requires forall i :: 0 <= i < |xs| ==> c !in xs[i]
    ensures Split(Join([c], xs), c) == xs
  {
    if |xs| == 1 {
      SplitWithout(xs[0], c);
    } else {
      SplitJoin(xs[1..], c);
      SplitAt(xs[0], Join([c], xs[1..]), c);
      assert [xs[0]] + xs[1..] == xs;
    }
  }
}
